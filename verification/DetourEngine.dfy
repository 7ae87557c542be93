/** The transaction engine as it runs: static lists, code bytes and trampoline memory changed in place. */
module DetourEngine {
  import opened Basics
  import opened DetourWindow
  import opened DetourRegions
  import opened DetourTransaction

  // ---------------------------------------------------------------- how much code is moved

  /** What is known of the code at an address: the length of its instruction, whether the instruction
      ends a function, and the length of filler there (0 for none). */
  datatype Code = Code(length: nat -> nat, ends: nat -> bool, filler: nat -> nat)

  ghost predicate Decodes(c: Code) {
    (forall a :: 1 <= c.length(a) <= 15) && (forall a :: c.filler(a) <= 11)
  }

  const ALIGNS := 8

  /** Where the first n whole instructions at the target end. */
  function Boundary(c: Code, target: nat, n: nat): nat {
    if n == 0 then 0 else var before := Boundary(c, target, n - 1); before + c.length(target + before)
  }

  /** No more is copied after n instructions: there is room for the jump, or eight have been copied, or
      the last one ends the function. */
  predicate Enough(c: Code, target: nat, n: nat) {
    n > 0 && (Boundary(c, target, n) >= SIZE_OF_JMP || n == ALIGNS || c.ends(target + Boundary(c, target, n - 1)))
  }

  ghost predicate Copied(c: Code, target: nat, n: nat) {
    Enough(c, target, n) && forall k: nat | k < n :: !Enough(c, target, k)
  }

  /** Whole pieces of filler are taken in while there is no room for the jump. */
  function PastFiller(c: Code, target: nat, at: nat): (r: nat)
    ensures r >= at
    decreases SIZE_OF_JMP - at
  {
    if at < SIZE_OF_JMP && c.filler(target + at) != 0 then PastFiller(c, target, at + c.filler(target + at)) else at
  }

  /** The bytes to be moved: the instructions that are copied, and filler. */
  ghost predicate Measured(c: Code, target: nat, cb: nat) {
    exists n: nat :: Copied(c, target, n) && cb == PastFiller(c, target, Boundary(c, target, n))
  }

  /** The code decides how many bytes are moved. */
  lemma MeasuredOnce(c: Code, target: nat, cb: nat, other: nat)
    requires Measured(c, target, cb) && Measured(c, target, other)
    ensures other == cb
  {
    hide Enough, PastFiller, Boundary;
    var n: nat :| Copied(c, target, n) && cb == PastFiller(c, target, Boundary(c, target, n));
    var m: nat :| Copied(c, target, m) && other == PastFiller(c, target, Boundary(c, target, m));
  }

  lemma NoneYet(c: Code, target: nat)
    ensures Boundary(c, target, 0) == 0 && !Enough(c, target, 0)
  {}

  lemma OneMore(c: Code, target: nat, n: nat)
    ensures Boundary(c, target, n + 1) == Boundary(c, target, n) + c.length(target + Boundary(c, target, n))
    ensures Enough(c, target, n + 1) ==
      (Boundary(c, target, n + 1) >= SIZE_OF_JMP || n + 1 == ALIGNS || c.ends(target + Boundary(c, target, n)))
  {}

  lemma FillerStep(c: Code, target: nat, at: nat)
    ensures PastFiller(c, target, at) == if at < SIZE_OF_JMP && c.filler(target + at) != 0
      then PastFiller(c, target, at + c.filler(target + at)) else at
  {}

  method MeasureTarget(target: nat, c: Code) returns (cb: nat)
    requires Decodes(c)
    ensures 1 <= cb <= SIZE_OF_JMP - 1 + 15
    ensures cb >= SIZE_OF_JMP || c.filler(target + cb) == 0
    ensures Measured(c, target, cb)
  {
    hide Boundary, Enough, PastFiller;
    NoneYet(c, target);
    cb := 0;
    var nAlign := 0;
    while cb < SIZE_OF_JMP
      invariant nAlign <= cb <= 19 && (cb == 0 ==> nAlign == 0) && nAlign <= ALIGNS
      invariant cb == Boundary(c, target, nAlign)
      invariant forall k: nat | k < nAlign :: !Enough(c, target, k)
      invariant if cb < SIZE_OF_JMP then !Enough(c, target, nAlign) else Enough(c, target, nAlign)
    {
      OneMore(c, target, nAlign);
      var op := target + cb;
      cb := cb + c.length(op);
      nAlign := nAlign + 1;
      if nAlign >= ALIGNS { break; }
      if c.ends(op) { break; }
    }
    assert Copied(c, target, nAlign);
    while cb < SIZE_OF_JMP && c.filler(target + cb) != 0
      invariant 1 <= cb <= 19
      invariant PastFiller(c, target, cb) == PastFiller(c, target, Boundary(c, target, nAlign))
    {
      FillerStep(c, target, cb);
      cb := cb + c.filler(target + cb);
    }
    FillerStep(c, target, cb);
  }

  /** Two operations of one kind on one trampoline. */
  predicate Again(ops: seq<Op>, isRemove: bool, j: nat, k: nat)
    requires j < |ops| && k < |ops|
  {
    ops[j].isRemove == isRemove && ops[k].isRemove == isRemove && ops[j].slot == ops[k].slot
  }

  ghost predicate DistinctSlots(ops: seq<Op>, isRemove: bool) {
    forall j, k :: 0 <= j < k < |ops| ==> !Again(ops, isRemove, j, k)
  }

  /** What an attach or detach meets: where code pointers lead after skipping jumps, the code at the
      target, whether there is memory, where a new region would be found, and the error of making the
      target writable. */
  datatype Encounter = Encounter(skip: nat -> nat, code: Code, memory: bool, found: nat, protect: int)

  /** The pending operations have trampolines, no two attaches the same one, and stay inside the code. */
  ghost predicate OpsFit(ops: seq<Op>, tramps: map<nat, Trampoline>, size: nat) {
    && DistinctSlots(ops, false)
    && forall k :: 0 <= k < |ops| ==> ops[k].slot in tramps && ops[k].target + |Written(ops[k], tramps)| <= size
  }

  /** Every trampoline has saved what was measured in the code as it was decoded at its attach. */
  ghost predicate TrampsFit(tramps: map<nat, Trampoline>, decoded: map<nat, Code>, size: nat) {
    forall s :: s in tramps ==>
      && 0 <= tramps[s].Target() && tramps[s].remain <= size && SIZE_OF_JMP <= |tramps[s].restore| <= 19
      && s in decoded && Measured(decoded[s], tramps[s].Target(), |tramps[s].restore|)
  }

  lemma OneMoreDistinct(o: Op, ops: seq<Op>, isRemove: bool)
    requires DistinctSlots(ops, isRemove) && (o.isRemove == isRemove ==> o.slot !in Slots(ops, isRemove))
    ensures DistinctSlots([o] + ops, isRemove)
  {
    var all := [o] + ops;
    forall j, k | 0 <= j < k < |all| ensures !Again(all, isRemove, j, k) {
      assert all[k] == ops[k - 1];
      if j > 0 { assert all[j] == ops[j - 1] && !Again(ops, isRemove, j - 1, k - 1); }
    }
  }

  lemma NoOpsFit(tramps: map<nat, Trampoline>, size: nat)
    ensures OpsFit([], tramps, size)
  {}

  lemma RemoveFits(ops: seq<Op>, tramps: map<nat, Trampoline>, decoded: map<nat, Code>, size: nat, pointer: nat,
      slot: nat)
    requires OpsFit(ops, tramps, size) && TrampsFit(tramps, decoded, size) && slot in tramps
    ensures 0 <= tramps[slot].Target() && SIZE_OF_JMP <= |tramps[slot].restore| <= 19
    ensures OpsFit([Op(true, pointer, tramps[slot].Target(), slot)] + ops, tramps, size)
  {
    hide Jump, DistinctSlots, Slots, Measured;
    OneMoreDistinct(Op(true, pointer, tramps[slot].Target(), slot), ops, false);
  }

  class Engine {
    const mem: array<byte>
    const alloc: Allocator
    var pointers: map<nat, nat>
    var tramps: map<nat, Trampoline>
    var owner: nat
    var error: int
    var ops: seq<Op>
    var threads: seq<nat>
    var suspend: map<nat, nat>
    var ignoreTooSmall: bool
    var retainRegions: bool
    ghost var decoded: map<nat, Code>

    ghost function W(): World
      reads this, mem
    {
      World(mem[..], pointers, tramps, owner, error, ops, threads, suspend)
    }

    ghost predicate Valid()
      reads this, alloc
    {
      alloc.Valid() && Ordered()
    }

    /** What also holds when a free list is broken: Valid() but for the state of the free lists. */
    ghost predicate Loose()
      reads this, alloc
    {
      alloc.Loose() && Ordered()
    }

    /** The trampolines are those in use, and their memory lies behind the code. */
    ghost predicate Ordered()
      reads this, alloc
    {
      && tramps.Keys == alloc.used
      && (forall b :: b in Bases(alloc.regions) ==> b > mem.Length)
      && OpsFit(ops, tramps, mem.Length) && TrampsFit(tramps, decoded, mem.Length)
    }

    constructor (mem: array<byte>, pointers: map<nat, nat>, suspend: map<nat, nat>)
      ensures Valid() && W() == World(mem[..], pointers, map[], 0, NO_ERROR, [], [], suspend)
      ensures this.mem == mem && fresh(alloc)
    {
      this.mem, this.pointers, this.suspend := mem, pointers, suspend;
      NoOpsFit(map[], mem.Length);
      alloc := new Allocator();
      tramps, owner, error, ops, threads := map[], 0, NO_ERROR, [], [];
      ignoreTooSmall, retainRegions, decoded := false, false, map[];
    }

    method Begin(caller: nat, protect: int) returns (code: int)
      requires Valid()
      modifies this`owner, this`ops, this`threads, this`error
      ensures Valid() && W() == DetourTransaction.Begin(old(W()), caller, protect).world
      ensures code == DetourTransaction.Begin(old(W()), caller, protect).code
    {
      hide OpsFit, TrampsFit;
      NoOpsFit(tramps, mem.Length);
      if owner != 0 { return ERROR_INVALID_OPERATION; }
      owner, ops, threads, error := caller, [], [], protect;
      return error;
    }

    method UpdateThread(h: nat, self: bool, memory: bool, suspendError: int) returns (code: int)
      requires Valid()
      modifies this`threads, this`suspend, this`error
      ensures Valid() && W() == DetourTransaction.UpdateThread(old(W()), h, self, memory, suspendError).world
      ensures code == DetourTransaction.UpdateThread(old(W()), h, self, memory, suspendError).code
    {
      hide OpsFit, TrampsFit;
      if error != NO_ERROR { return error; }
      if self { return NO_ERROR; }
      if !memory { error := ERROR_NOT_ENOUGH_MEMORY; return error; }
      if suspendError != NO_ERROR { error := suspendError; return error; }
      suspend := suspend[h := Suspended(suspend, h) + 1];
      threads := [h] + threads;
      return NO_ERROR;
    }

    method Detach(caller: nat, pointer: nat, detour: nat, e: Encounter) returns (code: int)
      requires Valid()
      modifies this`ops, this`error
      ensures var slot := if pointer in pointers then e.skip(pointers[pointer]) else 0;
        var x := DetachInput(pointer, detour, slot, e.skip(detour), e.memory, e.protect);
        && Valid() && W() == DetourTransaction.Detach(old(W()), caller, x, ignoreTooSmall).world
        && code == DetourTransaction.Detach(old(W()), caller, x, ignoreTooSmall).code
    {
      hide OpsFit, TrampsFit, Allocator.Valid;
      if owner != caller { return ERROR_INVALID_OPERATION; }
      if error != NO_ERROR { return error; }
      if detour == 0 { return ERROR_INVALID_PARAMETER; }
      if pointer == 0 { return ERROR_INVALID_HANDLE; }
      if pointer !in pointers || pointers[pointer] == 0 { error := ERROR_INVALID_HANDLE; return error; }
      if !e.memory { error := ERROR_NOT_ENOUGH_MEMORY; return error; }
      var slot := e.skip(pointers[pointer]);
      if slot in tramps { RemoveFits(ops, tramps, decoded, mem.Length, pointer, slot); }
      if slot !in tramps || tramps[slot].detour != e.skip(detour) {
        if !ignoreTooSmall { error := ERROR_INVALID_BLOCK; }
        return ERROR_INVALID_BLOCK;
      }
      if e.protect != NO_ERROR { error := e.protect; return error; }
      ops := [Op(true, pointer, tramps[slot].Target(), slot)] + ops;
      return NO_ERROR;
    }

    /** Resumes the threads that the transaction suspended. */
    method ResumeThreads()
      modifies this`threads, this`suspend
      ensures threads == [] && suspend == Resumed(old(suspend), old(threads))
    {
      while threads != []
        invariant Resumed(suspend, threads) == Resumed(old(suspend), old(threads))
        decreases |threads|
      {
        var n := Suspended(suspend, threads[0]);
        suspend := suspend[threads[0] := if n > 0 then n - 1 else 0];
        threads := threads[1..];
      }
    }

    /** Frees the trampolines of the pending attaches, or of the pending detaches.  One that comes up
        twice is freed twice, which breaks the list of its region. */
    method FreeTrampolines(isRemove: bool)
      requires Valid()
      modifies this`tramps, alloc
      ensures alloc.Loose() && tramps.Keys == alloc.used && Bases(alloc.regions) == old(Bases(alloc.regions))
      ensures tramps == old(tramps) - Slots(ops, isRemove) && alloc.broken == Knots(ops, isRemove)
    {
      hide Allocator.Valid, Allocator.Loose, OpsFit, TrampsFit, Slots, Usable, Knots;
      alloc.ValidIsLoose();
      AllocatorKnows(alloc);
      FitsAreDistinct(ops, tramps, mem.Length);
      NoSlots(isRemove);
      assert ops[..0] == [];
      for k := 0 to |ops|
        invariant alloc.Loose() && tramps.Keys == alloc.used && Bases(alloc.regions) == old(Bases(alloc.regions))
        invariant tramps == old(tramps) - Slots(ops[..k], isRemove) && alloc.broken == Knots(ops[..k], isRemove)
      {
        SlotsSnoc(ops, k, isRemove);
        KnotsSnoc(ops, k, isRemove);
        if ops[k].isRemove == isRemove {
          alloc.Free(ops[k].slot);
          tramps := tramps - {ops[k].slot};
        }
      }
      assert ops[..|ops|] == ops;
    }

    method Abort(caller: nat) returns (code: int)
      requires Valid()
      modifies this, alloc
      ensures Valid() && W() == DetourTransaction.Abort(old(W()), caller).world
      ensures code == DetourTransaction.Abort(old(W()), caller).code
          && Bases(alloc.regions) == old(Bases(alloc.regions))
      ensures ignoreTooSmall == old(ignoreTooSmall) && retainRegions == old(retainRegions) && decoded == old(decoded)
    {
      hide Allocator.Valid, Allocator.Loose, OpsFit, TrampsFit, Slots, Resumed, Knots, DistinctSlots;
      if owner != caller { return ERROR_INVALID_OPERATION; }
      FitsAreDistinct(ops, tramps, mem.Length);
      DistinctHasNoKnots(ops, false);
      FreeTrampolines(false);
      alloc.ValidIsLoose();
      NoOpsFit(tramps, mem.Length);
      FewerFit(old(tramps), tramps, Slots(ops, false), decoded, mem.Length);
      ops := [];
      ResumeThreads();
      owner := 0;
      return NO_ERROR;
    }

    method WriteCode(at: nat, bytes: seq<byte>)
      requires at + |bytes| <= mem.Length
      modifies mem
      ensures mem[..] == Overwrite(old(mem[..]), at, bytes)
    {
      forall j | 0 <= j < |bytes| { mem[at + j] := bytes[j]; }
    }

    /** Inserts or removes each of the detours. */
    method PatchAll() returns (freed: bool)
      requires OpsFit(ops, tramps, mem.Length)
      modifies mem, this`pointers
      ensures mem[..] == Patched(old(mem[..]), ops, tramps) && pointers == Repointed(old(pointers), ops)
      ensures freed <==> exists k :: 0 <= k < |ops| && ops[k].isRemove
    {
      hide Written, Overwrite, DistinctSlots;
      freed := false;
      assert ops[0..] == ops;
      for k := 0 to |ops|
        invariant Patched(mem[..], ops[k..], tramps) == Patched(old(mem[..]), ops, tramps)
        invariant Repointed(pointers, ops[k..]) == Repointed(old(pointers), ops)
        invariant freed <==> exists j :: 0 <= j < k && ops[j].isRemove
      {
        var o := ops[k];
        assert ops[k..][1..] == ops[k + 1..];
        WriteCode(o.target, Written(o, tramps));
        pointers := pointers[o.pointer := if o.isRemove then o.target else o.slot];
        freed := freed || o.isRemove;
      }
    }

    /** A commit that goes through and frees a trampoline also releases the regions it leaves empty. */
    ghost predicate Releases(caller: nat)
      reads this
    {
      owner == caller && error == NO_ERROR && !retainRegions && exists k :: 0 <= k < |ops| && ops[k].isRemove
    }

    /** The end of a commit: detached trampolines are freed, and the regions they leave empty released. */
    method FreeDetached(freed: bool)
      requires Valid()
      modifies this`tramps, this`ops, alloc
      ensures Loose() && ops == [] && tramps == old(tramps) - Slots(old(ops), true)
      ensures Bases(alloc.regions) ==
        if freed && !retainRegions then Kept(old(Bases(alloc.regions)), alloc.used) else old(Bases(alloc.regions))
      ensures forall b :: b in alloc.broken <==> b in Knots(old(ops), true) && b in Bases(alloc.regions)
    {
      hide Allocator.Valid, Allocator.Loose, OpsFit, TrampsFit, Slots, Kept, Knots;
      FreeTrampolines(true);
      NoOpsFit(tramps, mem.Length);
      FewerFit(old(tramps), tramps, Slots(ops, true), decoded, mem.Length);
      KnotsAreIn(alloc);
      ops := [];
      if freed && !retainRegions {
        KeptIsPart(Bases(alloc.regions), alloc.used);
        alloc.FreeUnusedRegions();
      }
    }

    predicate GoesThrough(caller: nat)
      reads this
    {
      owner == caller && error == NO_ERROR
    }

    /** Commit.  The free lists are in order afterwards exactly when no trampoline whose region is still
        there has been detached twice: such a trampoline is freed twice (FreesAreLinkedExactly), and
        only the release of the whole region undoes that. */
    method Commit(caller: nat) returns (code: int)
      requires Valid()
      modifies this, alloc, mem
      ensures Loose() && W() == DetourTransaction.Commit(old(W()), caller).world
      ensures code == DetourTransaction.Commit(old(W()), caller).code
      ensures Bases(alloc.regions) ==
        if old(Releases(caller)) then Kept(old(Bases(alloc.regions)), alloc.used) else old(Bases(alloc.regions))
      ensures Valid() <==> !(old(GoesThrough(caller)) && Meet(Knots(old(ops), true), Bases(alloc.regions)))
      ensures ignoreTooSmall == old(ignoreTooSmall) && retainRegions == old(retainRegions) && decoded == old(decoded)
    {
      hide Allocator.Valid, Allocator.Loose, OpsFit, TrampsFit, Slots, Resumed, Patched, Repointed, DistinctSlots,
          Kept, Knots;
      alloc.ValidIsLoose();
      if owner != caller { return ERROR_INVALID_OPERATION; }
      if error != NO_ERROR {
        var ignored := Abort(caller);
        alloc.ValidIsLoose();
        return error;
      }
      var freed := PatchAll();
      FreeDetached(freed);
      alloc.ValidIsLoose();
      ResumeThreads();
      owner := 0;
      return error;
    }

    /** The target is readable, and a region found lies behind the code and is new. */
    ghost predicate Meets(e: Encounter, pointer: nat)
      reads this, alloc
    {
      && Decodes(e.code) && mem.Length < SIZE_64
      && (pointer in pointers ==> e.skip(pointers[pointer]) + SIZE_OF_CODE <= mem.Length)
      && (e.found != NULL ==> GoodBase(e.found) && e.found > mem.Length && e.found !in Bases(alloc.regions))
    }

    /** There is a trampoline for the target: a region has one in the window, or a new one will. */
    predicate HasRoom(target: nat, e: Encounter)
      reads this, alloc, mem
    {
      && target + 6 <= mem.Length < SIZE_64
      && var w := FindBounds(target, mem[target..target + 6]);
         SomeFits(alloc.regions, w) || (e.found != NULL && w.Has(Slot(e.found, 2)))
    }

    /** The trampoline and the number of bytes to be moved; the trampoline is given back if the code is
        too small or cannot be made writable. */
    method Prepare(target: nat, e: Encounter) returns (code: int, slot: nat, moved: nat)
      requires Valid() && target + SIZE_OF_CODE <= mem.Length < SIZE_64 && Decodes(e.code)
      requires e.found != NULL ==> GoodBase(e.found) && e.found > mem.Length && e.found !in Bases(alloc.regions)
      modifies alloc
      ensures alloc.Valid() && (forall b :: b in Bases(alloc.regions) ==> b > mem.Length) && moved <= 19
      ensures slot != NULL <==> old(HasRoom(target, e))
      ensures slot == NULL ==> code == ERROR_NOT_ENOUGH_MEMORY && alloc.used == old(alloc.used)
      ensures slot != NULL ==> slot !in old(alloc.used) && InWindow(mem[..], target, slot)
      ensures slot != NULL ==> Measured(e.code, target, moved)
      ensures slot != NULL ==> code == if moved < SIZE_OF_JMP then ERROR_INVALID_BLOCK else e.protect
      ensures slot != NULL ==> alloc.used == if code == NO_ERROR then old(alloc.used) + {slot} else old(alloc.used)
    {
      hide Allocator.Valid, Allocator.Loose, OpsFit, TrampsFit, FindBounds, Usable, Measured;
      slot := alloc.Alloc(FindBounds(target, mem[target..target + 6]), e.found);
      if slot == NULL { return ERROR_NOT_ENOUGH_MEMORY, 0, 0; }
      SlotIsLow(alloc, slot);
      assert mem[..][target..target + 6] == mem[target..target + 6];
      moved := MeasureTarget(target, e.code);
      code := if moved < SIZE_OF_JMP then ERROR_INVALID_BLOCK else e.protect;
      AllocatorKnows(alloc);
      if code != NO_ERROR {
        alloc.ValidIsLoose();
        alloc.Free(slot);
        alloc.ValidIsLoose();
        return;
      }
      alloc.SetRemain(slot, target + moved);
    }

    /** The bytes that are moved are saved, and the operation is listed. */
    method Enlist(pointer: nat, target: nat, slot: nat, moved: nat, realDetour: nat, c: Code)
      requires alloc.Valid() && alloc.used == tramps.Keys + {slot} && slot !in tramps
      requires forall b :: b in Bases(alloc.regions) ==> b > mem.Length
      requires OpsFit(ops, tramps, mem.Length) && TrampsFit(tramps, decoded, mem.Length)
      requires target + moved <= mem.Length && SIZE_OF_JMP <= moved <= 19 && Measured(c, target, moved)
      modifies this`tramps, this`ops, this`decoded
      ensures Valid() && ops == [Op(false, pointer, target, slot)] + old(ops) && decoded == old(decoded)[slot := c]
      ensures tramps == old(tramps)[slot := Trampoline(mem[target..target + moved], target + moved, realDetour)]
    {
      hide Allocator.Valid, OpsFit, TrampsFit, Measured;
      var t := Trampoline(mem[target..target + moved], target + moved, realDetour);
      AttachFits(ops, tramps, decoded, mem.Length, pointer, target, slot, t, c);
      tramps, decoded := tramps[slot := t], decoded[slot := c];
      ops := [Op(false, pointer, target, slot)] + ops;
    }

    method Attach(caller: nat, pointer: nat, detour: nat, e: Encounter) returns (code: int, slot: nat, moved: nat)
      requires Valid() && Meets(e, pointer)
      modifies this, alloc
      ensures Valid() && ignoreTooSmall == old(ignoreTooSmall) && retainRegions == old(retainRegions)
      ensures var target := if pointer in old(pointers) then e.skip(old(pointers[pointer])) else 0;
        var x := AttachInput(pointer, detour, target, e.skip(detour), e.memory, slot, moved, e.protect);
        && target + moved <= mem.Length && slot !in old(tramps)
        && W() == DetourTransaction.Attach(old(W()), caller, x, ignoreTooSmall).world
        && code == DetourTransaction.Attach(old(W()), caller, x, ignoreTooSmall).code
        && (AsksForTrampoline(old(W()), caller, x) ==> (slot != 0 <==> old(HasRoom(target, e))))
        && (slot != 0 ==> InWindow(mem[..], target, slot) && Measured(e.code, target, moved))
        && decoded == (if |ops| > |old(ops)| then old(decoded)[slot := e.code] else old(decoded))
    {
      hide Allocator.Valid, OpsFit, TrampsFit, FindBounds, Measured, SomeFits;
      NoSlotZero(alloc);
      if detour == 0 { return ERROR_INVALID_PARAMETER, 0, 0; }
      if owner != caller { return ERROR_INVALID_OPERATION, 0, 0; }
      if error != NO_ERROR { return error, 0, 0; }
      if pointer == 0 { return ERROR_INVALID_HANDLE, 0, 0; }
      if pointer !in pointers || pointers[pointer] == 0 { error := ERROR_INVALID_HANDLE; return error, 0, 0; }
      var target, realDetour := e.skip(pointers[pointer]), e.skip(detour);
      if realDetour == target { return NO_ERROR, 0, 0; }
      if !e.memory { error := ERROR_NOT_ENOUGH_MEMORY; return error, 0, 0; }
      code, slot, moved := Prepare(target, e);
      if code != NO_ERROR {
        if !(slot != NULL && moved < SIZE_OF_JMP && ignoreTooSmall) { error := code; }
        return;
      }
      Enlist(pointer, target, slot, moved, realDetour, e.code);
    }

  }

  predicate Meet(s: set<nat>, bases: seq<nat>) { exists b :: b in s && b in bases }

  /** The regions of the trampolines that come up twice. */
  ghost function Knots(ops: seq<Op>, isRemove: bool): set<nat> {
    set j, k | 0 <= j < k < |ops| && Again(ops, isRemove, j, k) :: RegionOf(ops[k].slot)
  }

  lemma DistinctHasNoKnots(ops: seq<Op>, isRemove: bool)
    ensures DistinctSlots(ops, isRemove) <==> Knots(ops, isRemove) == {}
  {
    if !DistinctSlots(ops, isRemove) {
      var j, k :| 0 <= j < k < |ops| && Again(ops, isRemove, j, k);
      assert RegionOf(ops[k].slot) in Knots(ops, isRemove);
    }
  }

  lemma KnotsSnoc(ops: seq<Op>, n: nat, isRemove: bool)
    requires n < |ops|
    ensures Knots(ops[..n + 1], isRemove) == Knots(ops[..n], isRemove)
      + if ops[n].isRemove == isRemove && ops[n].slot in Slots(ops[..n], isRemove) then {RegionOf(ops[n].slot)} else {}
  {
    var more, fewer := ops[..n + 1], ops[..n];
    assert forall k :: 0 <= k < n ==> more[k] == fewer[k];
    forall b | b in Knots(fewer, isRemove) ensures b in Knots(more, isRemove) {
      var j, k :| 0 <= j < k < |fewer| && Again(fewer, isRemove, j, k) && b == RegionOf(fewer[k].slot);
      assert Again(more, isRemove, j, k);
    }
    forall b | b in Knots(more, isRemove) && b !in Knots(fewer, isRemove)
      ensures ops[n].isRemove == isRemove && ops[n].slot in Slots(fewer, isRemove) && b == RegionOf(ops[n].slot)
    {
      var j, k :| 0 <= j < k < |more| && Again(more, isRemove, j, k) && b == RegionOf(more[k].slot);
      if k < n { assert Again(fewer, isRemove, j, k); }
      assert fewer[j].slot == ops[n].slot;
    }
    if ops[n].isRemove == isRemove && ops[n].slot in Slots(fewer, isRemove) {
      var j :| 0 <= j < |fewer| && fewer[j].isRemove == isRemove && fewer[j].slot == ops[n].slot;
      assert Again(more, isRemove, j, n);
    }
  }

  lemma AllocatorKnows(alloc: Allocator)
    requires alloc.Valid()
    ensures forall a :: a in alloc.used ==> RegionOf(a) in Bases(alloc.regions) && Usable(RegionOf(a), a)
  {
    hide Holds, Usable, Distinct;
  }

  lemma KnotsAreIn(alloc: Allocator)
    requires alloc.Loose()
    ensures forall b :: b in alloc.broken ==> b in Bases(alloc.regions)
  {
    hide RegionOk, Known, Distinct;
  }

  lemma {:induction false} KeptIsPart(bases: seq<nat>, used: set<nat>)
    ensures forall b :: b in Kept(bases, used) ==> b in bases
    decreases |bases|
  {
    if bases != [] { KeptIsPart(bases[1..], used); }
  }

  lemma SlotIsLow(alloc: Allocator, slot: nat)
    requires alloc.Valid() && slot in alloc.used
    ensures slot + TRAMPOLINE < SIZE_64
  {
    hide Linked, Shared, Marked, Distinct;
    AllocatorKnows(alloc);
    var k :| 0 <= k < |alloc.regions| && Bases(alloc.regions)[k] == RegionOf(slot);
    assert Holds(alloc.regions[k], alloc.free[k], alloc.used);
    UsableIsTrampoline(RegionOf(slot), slot);
    SlotIsInside(RegionOf(slot), slot);
  }

  lemma NoSlotZero(alloc: Allocator)
    requires alloc.Valid()
    ensures 0 !in alloc.used
  {
    hide Holds;
    assert !Usable(RegionOf(0), 0);
  }

  lemma AttachFits(ops: seq<Op>, tramps: map<nat, Trampoline>, decoded: map<nat, Code>, size: nat, pointer: nat,
      target: nat, slot: nat, t: Trampoline, c: Code)
    requires OpsFit(ops, tramps, size) && TrampsFit(tramps, decoded, size) && slot !in tramps
    requires t.remain == target + |t.restore| <= size && SIZE_OF_JMP <= |t.restore| <= 19
    requires Measured(c, target, |t.restore|)
    ensures OpsFit([Op(false, pointer, target, slot)] + ops, tramps[slot := t], size)
        && TrampsFit(tramps[slot := t], decoded[slot := c], size)
  {
    hide Jump, DistinctSlots, Measured;
    OneMoreDistinct(Op(false, pointer, target, slot), ops, false);
    var all, more := [Op(false, pointer, target, slot)] + ops, tramps[slot := t];
    forall k | 0 <= k < |all| ensures all[k].slot in more && all[k].target + |Written(all[k], more)| <= size {
      if k > 0 { assert all[k] == ops[k - 1] && Written(ops[k - 1], more) == Written(ops[k - 1], tramps); }
    }
  }

  lemma FitsAreDistinct(ops: seq<Op>, tramps: map<nat, Trampoline>, size: nat)
    requires OpsFit(ops, tramps, size)
    ensures DistinctSlots(ops, false) && forall k :: 0 <= k < |ops| ==> ops[k].slot in tramps
  {}

  lemma FewerFit(tramps: map<nat, Trampoline>, fewer: map<nat, Trampoline>, gone: set<nat>,
      decoded: map<nat, Code>, size: nat)
    requires TrampsFit(tramps, decoded, size) && fewer == tramps - gone
    ensures TrampsFit(fewer, decoded, size)
  {
    hide Measured;
  }

  lemma NoSlots(isRemove: bool)
    ensures Slots([], isRemove) == {} && Knots([], isRemove) == {}
  {}

  lemma SlotsSnoc(ops: seq<Op>, k: nat, isRemove: bool)
    requires k < |ops|
    ensures Slots(ops[..k + 1], isRemove) ==
      Slots(ops[..k], isRemove) + if ops[k].isRemove == isRemove then {ops[k].slot} else {}
  {
    var more, fewer := ops[..k + 1], ops[..k];
    assert more == fewer + [ops[k]];
    forall s | s in Slots(fewer, isRemove) ensures s in Slots(more, isRemove) {
      var j :| 0 <= j < |fewer| && fewer[j].isRemove == isRemove && fewer[j].slot == s;
      assert more[j] == fewer[j];
    }
    assert more[k] == ops[k];
  }
}
