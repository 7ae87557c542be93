/** The transactions of app/hook-win32/src/detours.cpp (x64): what each call does to the code bytes, the
    user's pointers, the trampolines in use, the pending operations and the suspended threads. */
module DetourTransaction {
  import opened Basics
  import opened DetourWindow

  const NO_ERROR := 0
  const ERROR_INVALID_HANDLE := 6
  const ERROR_NOT_ENOUGH_MEMORY := 8
  const ERROR_INVALID_BLOCK := 9
  const ERROR_INVALID_PARAMETER := 87
  const ERROR_INVALID_OPERATION := 4317

  const SIZE_OF_JMP := 5
  const SIZE_OF_CODE := 30
  const BRK: byte := 0xcc

  /** rbRestore, pbRemain and pbDetour; cbRestore is |restore|. */
  datatype Trampoline = Trampoline(restore: seq<byte>, remain: nat, detour: nat) {
    function Target(): int { remain - |restore| }
  }

  datatype Op = Op(isRemove: bool, pointer: nat, target: nat, slot: nat)

  /** `tramps` holds the trampolines in use; `owner` is s_nPendingThreadId; `ops` and `threads` are the
      pending lists, newest first; `suspend` counts how often a thread is suspended. */
  datatype World = World(
    mem: seq<byte>, pointers: map<nat, nat>, tramps: map<nat, Trampoline>,
    owner: nat, error: int, ops: seq<Op>, threads: seq<nat>, suspend: map<nat, nat>)

  datatype Result = Result(world: World, code: int)

  function Deref(w: World, p: nat): nat { if p in w.pointers then w.pointers[p] else 0 }
  function Suspended(suspend: map<nat, nat>, h: nat): nat { if h in suspend then suspend[h] else 0 }

  function Fail(w: World, code: int): Result { Result(w.(error := code), code) }

  // ---------------------------------------------------------------- begin, update thread

  /** `protect`: the error of making the regions writable. */
  function Begin(w: World, caller: nat, protect: int): Result {
    if w.owner != 0 then Result(w, ERROR_INVALID_OPERATION)
    else Result(w.(owner := caller, ops := [], threads := [], error := protect), protect)
  }

  /** It does not ask whose transaction it is, or whether there is one. */
  function UpdateThread(w: World, h: nat, self: bool, memory: bool, suspendError: int): Result {
    if w.error != NO_ERROR then Result(w, w.error)
    else if self then Result(w, NO_ERROR)
    else if !memory then Fail(w, ERROR_NOT_ENOUGH_MEMORY)
    else if suspendError != NO_ERROR then Fail(w, suspendError)
    else Result(w.(threads := [h] + w.threads, suspend := w.suspend[h := Suspended(w.suspend, h) + 1]), NO_ERROR)
  }

  // ---------------------------------------------------------------- attach, detach

  /** Arguments of DetourAttach and what it meets: where the two pointers lead after skipping jumps,
      whether there is memory, the trampoline it gets (0 if none), how many bytes can be moved, and the
      error of making them writable. */
  datatype AttachInput = AttachInput(
    pointer: nat, detour: nat, target: nat, realDetour: nat, memory: bool, slot: nat, moved: nat, protect: int)

  /** Nothing is in the way before a trampoline is asked for. */
  predicate AsksForTrampoline(w: World, caller: nat, x: AttachInput) {
    && x.detour != 0 && w.owner == caller && w.error == NO_ERROR && x.pointer != 0 && Deref(w, x.pointer) != 0
    && x.realDetour != x.target && x.memory
  }

  function TooSmall(w: World, ignoreTooSmall: bool): Result {
    if ignoreTooSmall then Result(w, ERROR_INVALID_BLOCK) else Fail(w, ERROR_INVALID_BLOCK)
  }

  function Attach(w: World, caller: nat, x: AttachInput, ignoreTooSmall: bool): Result
    requires x.target + x.moved <= |w.mem|
  {
    if x.detour == 0 then Result(w, ERROR_INVALID_PARAMETER)
    else if w.owner != caller then Result(w, ERROR_INVALID_OPERATION)
    else if w.error != NO_ERROR then Result(w, w.error)
    else if x.pointer == 0 then Result(w, ERROR_INVALID_HANDLE)
    else if Deref(w, x.pointer) == 0 then Fail(w, ERROR_INVALID_HANDLE)
    else if x.realDetour == x.target then Result(w, NO_ERROR)
    else if !x.memory || x.slot == 0 then Fail(w, ERROR_NOT_ENOUGH_MEMORY)
    else if x.moved < SIZE_OF_JMP then TooSmall(w, ignoreTooSmall)
    else if x.moved > SIZE_OF_CODE - SIZE_OF_JMP then Fail(w, ERROR_INVALID_HANDLE)
    else if x.protect != NO_ERROR then Fail(w, x.protect)
    else
      var t := Trampoline(w.mem[x.target..x.target + x.moved], x.target + x.moved, x.realDetour);
      Result(w.(tramps := w.tramps[x.slot := t], ops := [Op(false, x.pointer, x.target, x.slot)] + w.ops), NO_ERROR)
  }

  /** The trampoline lies in the window that is computed for the target. */
  predicate InWindow(mem: seq<byte>, target: nat, slot: nat) {
    && target + 6 <= |mem| < SIZE_64 && slot + TRAMPOLINE < SIZE_64
    && FindBounds(target, mem[target..target + 6]).Has(slot)
  }

  datatype DetachInput = DetachInput(pointer: nat, detour: nat, slot: nat, realDetour: nat, memory: bool, protect: int)

  /** Memory that is not a trampoline in use is taken not to look like one. */
  function Detach(w: World, caller: nat, x: DetachInput, ignoreTooSmall: bool): Result {
    if w.owner != caller then Result(w, ERROR_INVALID_OPERATION)
    else if w.error != NO_ERROR then Result(w, w.error)
    else if x.detour == 0 then Result(w, ERROR_INVALID_PARAMETER)
    else if x.pointer == 0 then Result(w, ERROR_INVALID_HANDLE)
    else if Deref(w, x.pointer) == 0 then Fail(w, ERROR_INVALID_HANDLE)
    else if !x.memory then Fail(w, ERROR_NOT_ENOUGH_MEMORY)
    else if x.slot !in w.tramps || w.tramps[x.slot].Target() < 0 then TooSmall(w, ignoreTooSmall)
    else if |w.tramps[x.slot].restore| == 0
        || |w.tramps[x.slot].restore| > SIZE_OF_CODE then TooSmall(w, ignoreTooSmall)
    else if w.tramps[x.slot].detour != x.realDetour then TooSmall(w, ignoreTooSmall)
    else if x.protect != NO_ERROR then Fail(w, x.protect)
    else Result(w.(ops := [Op(true, x.pointer, w.tramps[x.slot].Target(), x.slot)] + w.ops), NO_ERROR)
  }

  // ---------------------------------------------------------------- abort

  function Resumed(suspend: map<nat, nat>, threads: seq<nat>): map<nat, nat>
    decreases |threads|
  {
    if threads == [] then suspend
    else
      var n := Suspended(suspend, threads[0]);
      Resumed(suspend[threads[0] := if n > 0 then n - 1 else 0], threads[1..])
  }

  function Slots(ops: seq<Op>, isRemove: bool): set<nat> {
    set k | 0 <= k < |ops| && ops[k].isRemove == isRemove :: ops[k].slot
  }

  /** The transaction is over: the threads run again. */
  function Closed(w: World): World {
    w.(ops := [], threads := [], suspend := Resumed(w.suspend, w.threads), owner := 0)
  }

  function Abort(w: World, caller: nat): Result {
    if w.owner != caller then Result(w, ERROR_INVALID_OPERATION)
    else Result(Closed(w.(tramps := w.tramps - Slots(w.ops, false))), NO_ERROR)
  }

  // ---------------------------------------------------------------- commit

  /** A jump to rbCodeIn of the trampoline, and breakpoints up to pbRemain. */
  function Jump(target: nat, slot: nat, n: nat): (b: seq<byte>)
    ensures n >= SIZE_OF_JMP ==> |b| == n
  {
    JmpImmediate(Wrap(target), Wrap(slot + RB_CODE_IN)) + seq(if n > SIZE_OF_JMP then n - SIZE_OF_JMP else 0, _ => BRK)
  }

  /** The bytes that an operation writes at its target. */
  function Written(o: Op, tramps: map<nat, Trampoline>): seq<byte> {
    if o.slot !in tramps then []
    else if o.isRemove then tramps[o.slot].restore
    else Jump(o.target, o.slot, |tramps[o.slot].restore|)
  }

  function Patched(mem: seq<byte>, ops: seq<Op>, tramps: map<nat, Trampoline>): (r: seq<byte>)
    ensures |r| == |mem|
    decreases |ops|
  {
    if ops == [] then mem else Patched(Overwrite(mem, ops[0].target, Written(ops[0], tramps)), ops[1..], tramps)
  }

  function Repointed(pointers: map<nat, nat>, ops: seq<Op>): map<nat, nat>
    decreases |ops|
  {
    if ops == [] then pointers
    else Repointed(pointers[ops[0].pointer := if ops[0].isRemove then ops[0].target else ops[0].slot], ops[1..])
  }

  function Commit(w: World, caller: nat): Result {
    if w.owner != caller then Result(w, ERROR_INVALID_OPERATION)
    else if w.error != NO_ERROR then Result(Abort(w, caller).world, w.error)
    else
      Result(Closed(w.(mem := Patched(w.mem, w.ops, w.tramps), pointers := Repointed(w.pointers, w.ops),
                       tramps := w.tramps - Slots(w.ops, true))), NO_ERROR)
  }

  // ---------------------------------------------------------------- a transaction that does not happen

  datatype Call =
    | CallAttach(caller: nat, attach: AttachInput, ignore: bool)
    | CallDetach(caller: nat, detach: DetachInput, ignore: bool)
    | CallUpdate(thread: nat, self: bool, memory: bool, suspendError: int)

  /** The allocator hands out a trampoline that is not in use; the bytes to be moved exist. */
  predicate Fair(w: World, c: Call) {
    c.CallAttach? ==> c.attach.slot !in w.tramps && c.attach.target + c.attach.moved <= |w.mem|
  }

  function Step(w: World, c: Call): World
    requires Fair(w, c)
  {
    match c
    case CallAttach(caller, x, ignore) => Attach(w, caller, x, ignore).world
    case CallDetach(caller, x, ignore) => Detach(w, caller, x, ignore).world
    case CallUpdate(h, self, memory, suspendError) => UpdateThread(w, h, self, memory, suspendError).world
  }

  predicate AllFair(w: World, calls: seq<Call>)
    decreases |calls|
  {
    calls == [] || (Fair(w, calls[0]) && AllFair(Step(w, calls[0]), calls[1..]))
  }

  function Steps(w: World, calls: seq<Call>): World
    requires AllFair(w, calls)
    decreases |calls|
  {
    if calls == [] then w else Steps(Step(w, calls[0]), calls[1..])
  }

  /** What the calls of a transaction have done to the world b in which it began. */
  ghost predicate Pending(b: World, w: World) {
    && w.mem == b.mem && w.pointers == b.pointers && w.owner == b.owner
    && (forall s :: s in w.tramps <==> s in b.tramps || s in Slots(w.ops, false))
    && (forall s :: s in b.tramps ==> s !in Slots(w.ops, false) && w.tramps[s] == b.tramps[s])
    && (forall h :: Suspended(w.suspend, h) == Suspended(b.suspend, h) + multiset(w.threads)[h])
  }

  lemma SlotsCons(o: Op, ops: seq<Op>, isRemove: bool)
    ensures Slots([o] + ops, isRemove) == Slots(ops, isRemove) + if o.isRemove == isRemove then {o.slot} else {}
  {
    var all := [o] + ops;
    forall s | s in Slots(ops, isRemove) ensures s in Slots(all, isRemove) {
      var k :| 0 <= k < |ops| && ops[k].isRemove == isRemove && ops[k].slot == s;
      assert all[k + 1] == ops[k];
    }
    assert all[0] == o;
  }

  /** A call fails or does nothing, or it adds an operation or a thread. */
  predicate Attached(w: World, w': World, x: AttachInput) {
    && x.slot != 0 && SIZE_OF_JMP <= x.moved <= SIZE_OF_CODE - SIZE_OF_JMP && x.target + x.moved <= |w.mem|
    && Deref(w, x.pointer) != 0
    && var t := Trampoline(w.mem[x.target..x.target + x.moved], x.target + x.moved, x.realDetour);
       w' == w.(tramps := w.tramps[x.slot := t], ops := [Op(false, x.pointer, x.target, x.slot)] + w.ops)
  }

  predicate Detached(w: World, w': World, x: DetachInput) {
    && x.slot in w.tramps && w.tramps[x.slot].Target() >= 0 && Deref(w, x.pointer) != 0
    && w' == w.(ops := [Op(true, x.pointer, w.tramps[x.slot].Target(), x.slot)] + w.ops)
  }

  predicate Updated(w: World, w': World, h: nat) {
    w' == w.(threads := [h] + w.threads, suspend := w.suspend[h := Suspended(w.suspend, h) + 1])
  }

  lemma WhatStepsDo(w: World, c: Call)
    requires Fair(w, c)
    ensures var w' := Step(w, c);
      || w' == w.(error := w'.error)
      || (c.CallAttach? && Attached(w, w', c.attach))
      || (c.CallDetach? && Detached(w, w', c.detach))
      || (c.CallUpdate? && Updated(w, w', c.thread))
  {}

  lemma AttachedKeepsPending(b: World, w: World, w': World, x: AttachInput)
    requires Pending(b, w) && Attached(w, w', x) && x.slot !in w.tramps
    ensures Pending(b, w')
  {
    SlotsCons(w'.ops[0], w.ops, false);
    hide Slots;
  }

  lemma DetachedKeepsPending(b: World, w: World, w': World, x: DetachInput)
    requires Pending(b, w) && Detached(w, w', x)
    ensures Pending(b, w')
  {
    SlotsCons(w'.ops[0], w.ops, false);
    hide Slots;
  }

  lemma UpdatedKeepsPending(b: World, w: World, w': World, h: nat)
    requires Pending(b, w) && Updated(w, w', h)
    ensures Pending(b, w')
  {
    hide Slots;
    assert multiset(w'.threads) == multiset(w.threads) + multiset{h};
  }

  lemma StepKeepsPending(b: World, w: World, c: Call)
    requires Pending(b, w) && Fair(w, c)
    ensures Pending(b, Step(w, c))
  {
    var w' := Step(w, c);
    hide Step, Attached, Detached, Updated, Slots;
    WhatStepsDo(w, c);
    if c.CallAttach? && Attached(w, w', c.attach) { AttachedKeepsPending(b, w, w', c.attach); }
    else if c.CallDetach? && Detached(w, w', c.detach) { DetachedKeepsPending(b, w, w', c.detach); }
    else if c.CallUpdate? && Updated(w, w', c.thread) { UpdatedKeepsPending(b, w, w', c.thread); }
  }

  lemma {:induction false} CallsKeepPending(b: World, w: World, calls: seq<Call>)
    requires Pending(b, w) && AllFair(w, calls)
    ensures Pending(b, Steps(w, calls))
    decreases |calls|
  {
    hide Pending, Step, Fair;
    if calls != [] {
      StepKeepsPending(b, w, calls[0]);
      CallsKeepPending(b, Step(w, calls[0]), calls[1..]);
    }
  }

  lemma {:induction false} ResumedCounts(suspend: map<nat, nat>, threads: seq<nat>, h: nat)
    requires Suspended(suspend, h) >= multiset(threads)[h]
    ensures Suspended(Resumed(suspend, threads), h) == Suspended(suspend, h) - multiset(threads)[h]
    decreases |threads|
  {
    if threads != [] {
      var t, rest := threads[0], threads[1..];
      assert threads == [t] + rest;
      assert multiset(threads) == multiset{t} + multiset(rest);
      var n := Suspended(suspend, t);
      ResumedCounts(suspend[t := if n > 0 then n - 1 else 0], rest, h);
    }
  }

  /** Code, pointers, trampolines in use and suspend counts are those of b. */
  ghost predicate Restored(b: World, w: World) {
    && w.mem == b.mem && w.pointers == b.pointers && w.tramps == b.tramps
    && w.ops == [] && w.threads == [] && w.owner == 0
    && forall h :: Suspended(w.suspend, h) == Suspended(b.suspend, h)
  }

  lemma AbortRestores(b: World, w: World)
    requires Pending(b, w)
    ensures Restored(b, Abort(w, w.owner).world)
  {
    var w' := Abort(w, w.owner).world;
    assert w'.tramps == b.tramps by { hide Slots; }
    forall h ensures Suspended(w'.suspend, h) == Suspended(b.suspend, h) { ResumedCounts(w.suspend, w.threads, h); }
  }

  /** Whatever is called in a transaction: if it is aborted, or committed with an error pending, the world
      is as it was when the transaction began. */
  lemma NothingHappened(w: World, caller: nat, protect: int, calls: seq<Call>)
    requires w.owner == 0 && AllFair(Begin(w, caller, protect).world, calls)
    ensures var end := Steps(Begin(w, caller, protect).world, calls);
      && Restored(w, Abort(end, caller).world)
      && (end.error != NO_ERROR ==> Restored(w, Commit(end, caller).world) && Commit(end, caller).code == end.error)
  {
    var b := Begin(w, caller, protect).world;
    assert Slots([], false) == {};
    assert Pending(b, b);
    CallsKeepPending(b, b, calls);
    AbortRestores(b, Steps(b, calls));
  }

  // ---------------------------------------------------------------- calls without an obstacle

  /** Nothing is in the way of an attach: it is the caller's transaction, no error is pending, the pointer
      leads to code that is not the detour, there are memory and a trampoline, and as many bytes can be
      moved and made writable as the jump needs and the trampoline holds. */
  predicate AttachGoes(w: World, caller: nat, x: AttachInput) {
    && AsksForTrampoline(w, caller, x) && x.slot != 0
    && SIZE_OF_JMP <= x.moved <= SIZE_OF_CODE - SIZE_OF_JMP && x.protect == NO_ERROR
  }

  /** Nothing is in the way of a detach: the pointer leads to a trampoline in use, and the detour is the
      one that was attached with it. */
  predicate DetachGoes(w: World, caller: nat, x: DetachInput) {
    && x.detour != 0 && w.owner == caller && w.error == NO_ERROR && x.pointer != 0 && Deref(w, x.pointer) != 0
    && x.memory && x.slot in w.tramps && w.tramps[x.slot].Target() >= 0
    && 0 < |w.tramps[x.slot].restore| <= SIZE_OF_CODE && w.tramps[x.slot].detour == x.realDetour
    && x.protect == NO_ERROR
  }

  /** An attach takes a trampoline, with the bytes of the target, the way back and the detour, and lists
      the operation, exactly when nothing is in the way. */
  lemma AttachAdds(w: World, caller: nat, x: AttachInput, ignore: bool)
    requires x.target + x.moved <= |w.mem|
    ensures var r := Attach(w, caller, x, ignore);
      if AttachGoes(w, caller, x) then
        && r.code == NO_ERROR
        && r.world == w.(tramps := r.world.tramps, ops := [Op(false, x.pointer, x.target, x.slot)] + w.ops)
        && r.world.tramps == w.tramps[
             x.slot := Trampoline(w.mem[x.target..x.target + x.moved], x.target + x.moved, x.realDetour)]
      else
        r.world == w.(error := r.world.error) && (r.code == NO_ERROR ==> x.realDetour == x.target && r.world == w)
  {}

  /** A detach lists the removal exactly when nothing is in the way. */
  lemma DetachAdds(w: World, caller: nat, x: DetachInput, ignore: bool)
    ensures var r := Detach(w, caller, x, ignore);
      && (r.code == NO_ERROR <==> DetachGoes(w, caller, x))
      && r.world == if DetachGoes(w, caller, x)
           then w.(ops := [Op(true, x.pointer, w.tramps[x.slot].Target(), x.slot)] + w.ops)
           else w.(error := r.world.error)
  {}

  /** What a single obstacle does to an attach.  Failures inside the caller's own transaction become its
      pending error, but for targets that are too small while those are ignored. */
  lemma AttachRefused(w: World, caller: nat, x: AttachInput, ignore: bool)
    requires x.target + x.moved <= |w.mem|
    ensures var r := Attach(w, caller, x, ignore);
      && (x.detour == 0 && AttachGoes(w, caller, x.(detour := 1)) ==> r == Result(w, ERROR_INVALID_PARAMETER))
      && (w.owner != caller && AttachGoes(w.(owner := caller), caller, x) ==> r == Result(w, ERROR_INVALID_OPERATION))
      && (w.error != NO_ERROR && AttachGoes(w.(error := NO_ERROR), caller, x) ==> r == Result(w, w.error))
      && (!x.memory && AttachGoes(w, caller, x.(memory := true)) ==> r == Fail(w, ERROR_NOT_ENOUGH_MEMORY))
      && (x.slot == 0 && AttachGoes(w, caller, x.(slot := 1)) ==> r == Fail(w, ERROR_NOT_ENOUGH_MEMORY))
      && (x.moved < SIZE_OF_JMP && AttachGoes(w, caller, x.(moved := SIZE_OF_JMP)) ==>
            r == Result(if ignore then w else w.(error := ERROR_INVALID_BLOCK), ERROR_INVALID_BLOCK))
      && (x.moved > SIZE_OF_CODE - SIZE_OF_JMP && AttachGoes(w, caller, x.(moved := SIZE_OF_JMP)) ==>
            r == Fail(w, ERROR_INVALID_HANDLE))
      && (x.protect != NO_ERROR && AttachGoes(w, caller, x.(protect := NO_ERROR)) ==> r == Fail(w, x.protect))
    ensures x.detour != 0 && w.owner == caller && w.error == NO_ERROR && Deref(w, x.pointer) == 0 ==>
        Attach(w, caller, x, ignore) == Result(if x.pointer == 0 then w else w.(error := ERROR_INVALID_HANDLE),
          ERROR_INVALID_HANDLE)
  {}

  /** The same for a detach.  With another detour it is refused: no removal is listed and the hook stays. */
  lemma DetachRefused(w: World, caller: nat, x: DetachInput, ignore: bool)
    ensures var r := Detach(w, caller, x, ignore);
      && (x.slot in w.tramps && x.realDetour != w.tramps[x.slot].detour
          && DetachGoes(w, caller, x.(realDetour := w.tramps[x.slot].detour)) ==>
            r == Result(if ignore then w else w.(error := ERROR_INVALID_BLOCK), ERROR_INVALID_BLOCK))
      && (x.detour == 0 && DetachGoes(w, caller, x.(detour := 1)) ==> r == Result(w, ERROR_INVALID_PARAMETER))
      && (w.owner != caller && DetachGoes(w.(owner := caller), caller, x) ==> r == Result(w, ERROR_INVALID_OPERATION))
      && (w.error != NO_ERROR && DetachGoes(w.(error := NO_ERROR), caller, x) ==> r == Result(w, w.error))
      && (!x.memory && DetachGoes(w, caller, x.(memory := true)) ==> r == Fail(w, ERROR_NOT_ENOUGH_MEMORY))
      && (x.protect != NO_ERROR && DetachGoes(w, caller, x.(protect := NO_ERROR)) ==> r == Fail(w, x.protect))
    ensures x.detour != 0 && w.owner == caller && w.error == NO_ERROR && Deref(w, x.pointer) == 0 ==>
        Detach(w, caller, x, ignore) == Result(if x.pointer == 0 then w else w.(error := ERROR_INVALID_HANDLE),
          ERROR_INVALID_HANDLE)
  {}

  /** Only the thread that began a transaction can end it, and nobody can begin another in between. */
  lemma OneOwner(w: World, caller: nat, protect: int)
    requires w.owner != 0
    ensures Begin(w, caller, protect) == Result(w, ERROR_INVALID_OPERATION)
    ensures w.owner != caller ==> Abort(w, caller) == Commit(w, caller) == Result(w, ERROR_INVALID_OPERATION)
    ensures w.owner == caller ==> Abort(w, caller).world.owner == 0 && Commit(w, caller).world.owner == 0
  {}

  // ---------------------------------------------------------------- two calls in the wrong place

  /** A second detach of the same trampoline in one transaction is accepted like the first. */
  lemma DetachedTwice(w: World, caller: nat, x: DetachInput, ignoreTooSmall: bool)
    requires |Detach(w, caller, x, ignoreTooSmall).world.ops| > |w.ops|
    ensures var once := Detach(w, caller, x, ignoreTooSmall).world;
      var twice := Detach(once, caller, x, ignoreTooSmall);
      && twice.code == NO_ERROR && |twice.world.ops| == |w.ops| + 2
      && twice.world.ops[0] == twice.world.ops[1] && twice.world.ops[0].isRemove && twice.world.ops[0].slot == x.slot
  {
    var once := Detach(w, caller, x, ignoreTooSmall).world;
    assert once.tramps == w.tramps && once.pointers == w.pointers;
  }

  /** A detour that is its own target is accepted and nothing is attached: the error that is stored on
      this path is still NO_ERROR. */
  lemma AttachedToItself(w: World, caller: nat, x: AttachInput, ignoreTooSmall: bool)
    requires x.target + x.moved <= |w.mem| && x.realDetour == x.target
    requires x.detour != 0 && w.owner == caller && w.error == NO_ERROR && x.pointer != 0 && Deref(w, x.pointer) != 0
    ensures Attach(w, caller, x, ignoreTooSmall) == Result(w, NO_ERROR)
  {}

  // ---------------------------------------------------------------- any sequence of transactions

  datatype Event = Starts(caller: nat, protect: int) | Calls(call: Call) | Aborts(caller: nat) | Commits(caller: nat)

  /** Thread ids are not 0. */
  predicate FairEvent(w: World, e: Event) {
    match e
    case Starts(caller, _) => caller != 0
    case Calls(c) => Fair(w, c) && (c.CallAttach? || c.CallDetach? ==> c.caller != 0)
    case Aborts(caller) => caller != 0
    case Commits(caller) => caller != 0
  }

  function Next(w: World, e: Event): World
    requires FairEvent(w, e)
  {
    match e
    case Starts(caller, protect) => Begin(w, caller, protect).world
    case Calls(c) => Step(w, c)
    case Aborts(caller) => Abort(w, caller).world
    case Commits(caller) => Commit(w, caller).world
  }

  predicate FairRun(w: World, run: seq<Event>)
    decreases |run|
  {
    run == [] || (FairEvent(w, run[0]) && FairRun(Next(w, run[0]), run[1..]))
  }

  function After(w: World, run: seq<Event>): World
    requires FairRun(w, run)
    decreases |run|
  {
    if run == [] then w else After(Next(w, run[0]), run[1..])
  }

  // ---------------------------------------------------------------- suspend counts

  /** The call has to suspend h: no error is pending, h is another thread, and neither memory nor the
      system fails. */
  predicate Suspends(w: World, c: Call, h: nat) {
    c.CallUpdate? && c.thread == h && !c.self && c.memory && c.suspendError == NO_ERROR && w.error == NO_ERROR
  }

  /** The call suspends exactly the thread it has to, and lists it; otherwise it does nothing or stores
      the error that it meets. */
  lemma UpdateSuspends(w: World, c: Call)
    requires c.CallUpdate?
    ensures var r := UpdateThread(w, c.thread, c.self, c.memory, c.suspendError);
      && r.world == Step(w, c)
      && (Suspends(w, c, c.thread) ==>
            && r.code == NO_ERROR && r.world.threads == [c.thread] + w.threads
            && r.world == w.(threads := r.world.threads, suspend := r.world.suspend)
            && forall h :: Suspended(r.world.suspend, h) == Suspended(w.suspend, h) + if h == c.thread then 1 else 0)
      && (!Suspends(w, c, c.thread) ==> r.world == w.(error := r.code))
      && (w.error == NO_ERROR && !c.self && !c.memory ==> r.code == ERROR_NOT_ENOUGH_MEMORY)
      && (w.error == NO_ERROR && !c.self && c.memory && c.suspendError != NO_ERROR ==> r.code == c.suspendError)
  {}

  /** The event suspends h while there is no transaction. */
  predicate SuspendsOutside(w: World, e: Event, h: nat) { w.owner == 0 && e.Calls? && Suspends(w, e.call, h) }

  /** How often a run suspends h outside a transaction. */
  function SuspendedOutside(w: World, run: seq<Event>, h: nat): nat
    requires FairRun(w, run)
    decreases |run|
  {
    if run == [] then 0
    else (if SuspendsOutside(w, run[0], h) then 1 else 0) + SuspendedOutside(Next(w, run[0]), run[1..], h)
  }

  /** How often the transaction that is under way has suspended h. */
  function PendingCount(w: World, h: nat): nat { if w.owner != 0 then multiset(w.threads)[h] else 0 }

  predicate CountCovers(w: World, h: nat) { PendingCount(w, h) <= Suspended(w.suspend, h) }

  lemma UpdateCounts(w: World, w': World, t: nat, h: nat)
    requires Updated(w, w', t) && CountCovers(w, h)
    ensures Suspended(w'.suspend, h) == Suspended(w.suspend, h) + if t == h then 1 else 0
    ensures PendingCount(w', h) == PendingCount(w, h) + (if t == h && w.owner != 0 then 1 else 0)
  {
    assert multiset(w'.threads) == multiset(w.threads) + multiset{t};
  }

  lemma CallCounts(w: World, c: Call, h: nat)
    requires FairEvent(w, Calls(c)) && CountCovers(w, h)
    ensures var w' := Step(w, c);
      && CountCovers(w', h)
      && Suspended(w'.suspend, h) - PendingCount(w', h)
         == Suspended(w.suspend, h) - PendingCount(w, h) + if SuspendsOutside(w, Calls(c), h) then 1 else 0
  {
    hide Step, Attached, Detached, Updated;
    WhatStepsDo(w, c);
    ShapeOf(w, c);
    var w' := Step(w, c);
    if c.CallUpdate? {
      UpdateIs(w, c);
      if Suspends(w, c, c.thread) { UpdateCounts(w, w', c.thread, h); }
    }
  }

  lemma UpdateIs(w: World, c: Call)
    requires c.CallUpdate?
    ensures if Suspends(w, c, c.thread) then Updated(w, Step(w, c), c.thread)
            else Step(w, c) == w.(error := Step(w, c).error)
  {}

  lemma ShapeOf(w: World, c: Call)
    requires Fair(w, c)
    ensures var w' := Step(w, c);
      && (Fair(w, c) && c.CallAttach? && Attached(w, w', c.attach) ==> SameThreads(w, w'))
      && (c.CallDetach? && Detached(w, w', c.detach) ==> SameThreads(w, w'))
      && (c.CallUpdate? && Updated(w, w', c.thread) ==> |w'.threads| == |w.threads| + 1 && w'.owner == w.owner)
  {
    hide Step;
  }

  predicate SameThreads(w: World, w': World)
    { w'.suspend == w.suspend && w'.threads == w.threads && w'.owner == w.owner }

  lemma ClosedCounts(w: World, w': World, h: nat)
    requires CountCovers(w, h) && w.owner != 0 && w'.suspend == Resumed(w.suspend, w.threads) && w'.owner == 0
    ensures CountCovers(w', h)
        && Suspended(w'.suspend, h) - PendingCount(w', h) == Suspended(w.suspend, h) - PendingCount(w, h)
  {
    ResumedCounts(w.suspend, w.threads, h);
  }

  lemma EventCounts(w: World, e: Event, h: nat)
    requires FairEvent(w, e) && CountCovers(w, h)
    ensures var w' := Next(w, e);
      && CountCovers(w', h)
      && Suspended(w'.suspend, h) - PendingCount(w', h)
         == Suspended(w.suspend, h) - PendingCount(w, h) + if SuspendsOutside(w, e, h) then 1 else 0
  {
    hide Step, Resumed, Patched, Repointed, Slots, PendingCount;
    match e
    case Starts(caller, protect) => BeginCounts(w, caller, protect, h);
    case Calls(c) => CallCounts(w, c, h);
    case Aborts(caller) => if w.owner == caller { ClosedCounts(w, Next(w, e), h); }
    case Commits(caller) => if w.owner == caller { ClosedCounts(w, Next(w, e), h); }
  }

  lemma BeginCounts(w: World, caller: nat, protect: int, h: nat)
    requires CountCovers(w, h)
    ensures var w' := Begin(w, caller, protect).world;
      CountCovers(w', h) && Suspended(w'.suspend, h) - PendingCount(w', h) ==
          Suspended(w.suspend, h) - PendingCount(w, h)
  {}

  lemma {:induction false} RunCounts(w: World, run: seq<Event>, h: nat)
    requires FairRun(w, run) && CountCovers(w, h)
    ensures var end := After(w, run);
      && CountCovers(end, h)
      && Suspended(end.suspend, h) - PendingCount(end, h) == Suspended(w.suspend, h) - PendingCount(w, h)
          + SuspendedOutside(w, run, h)
    decreases |run|
  {
    hide Next, FairEvent, CountCovers, PendingCount, SuspendsOutside;
    if run != [] {
      EventCounts(w, run[0], h);
      RunCounts(Next(w, run[0]), run[1..], h);
    }
  }

  /** Over any run that begins and ends without a transaction, however its transactions end, the suspend
      count of a thread grows by exactly the number of times it was suspended outside of them. */
  lemma SuspendCountsReturn(w: World, run: seq<Event>, h: nat)
    requires FairRun(w, run) && w.owner == 0 && After(w, run).owner == 0
    ensures Suspended(After(w, run).suspend, h) == Suspended(w.suspend, h) + SuspendedOutside(w, run, h)
  {
    RunCounts(w, run, h);
  }

  // ---------------------------------------------------------------- threads stand still until the end

  /** How often calls have to suspend h. */
  function Suspensions(w: World, calls: seq<Call>, h: nat): nat
    requires AllFair(w, calls)
    decreases |calls|
  {
    if calls == [] then 0
    else (if Suspends(w, calls[0], h) then 1 else 0) + Suspensions(Step(w, calls[0]), calls[1..], h)
  }

  lemma StepSuspends(w: World, c: Call, h: nat)
    requires Fair(w, c)
    ensures Suspended(Step(w, c).suspend, h) == Suspended(w.suspend, h) + if Suspends(w, c, h) then 1 else 0
    ensures Step(w, c).owner == w.owner
  {
    if c.CallUpdate? { UpdateSuspends(w, c); }
  }

  lemma {:induction false} StepsSuspend(w: World, calls: seq<Call>, h: nat)
    requires AllFair(w, calls)
    ensures Suspended(Steps(w, calls).suspend, h) == Suspended(w.suspend, h) + Suspensions(w, calls, h)
    ensures Steps(w, calls).owner == w.owner
    decreases |calls|
  {
    hide Step, Fair, Suspends;
    if calls != [] {
      StepSuspends(w, calls[0], h);
      StepsSuspend(Step(w, calls[0]), calls[1..], h);
    }
  }

  /** At any time in a transaction the count of a thread is higher by the number of calls that had to
      suspend it; when the transaction is over, however it ends, it is what it was. */
  lemma SuspendedUntilTheEnd(w: World, caller: nat, protect: int, calls: seq<Call>, h: nat)
    requires w.owner == 0 && AllFair(Begin(w, caller, protect).world, calls)
    ensures var b := Begin(w, caller, protect).world; var end := Steps(b, calls);
      && Suspended(end.suspend, h) == Suspended(w.suspend, h) + Suspensions(b, calls, h)
      && Suspended(Abort(end, caller).world.suspend, h) == Suspended(w.suspend, h)
      && Suspended(Commit(end, caller).world.suspend, h) == Suspended(w.suspend, h)
  {
    hide Step, Fair, Patched, Repointed, Slots, Pending, Restored, Resumed, Suspensions;
    var b := Begin(w, caller, protect).world;
    StepsSuspend(b, calls, h);
    BeginIsPending(w, caller, protect);
    CallsKeepPending(b, b, calls);
    var end := Steps(b, calls);
    PendingCounts(b, end, h);
    ResumedCounts(end.suspend, end.threads, h);
  }

  lemma PendingCounts(b: World, w: World, h: nat)
    requires Pending(b, w)
    ensures Suspended(w.suspend, h) == Suspended(b.suspend, h) + multiset(w.threads)[h]
  {}

  lemma BeginIsPending(w: World, caller: nat, protect: int)
    requires w.owner == 0
    ensures var b := Begin(w, caller, protect).world; Pending(b, b)
  {
    assert Slots([], false) == {};
  }

  /** Once an error is pending no call does anything. */
  lemma {:induction false} ErrorStays(w: World, calls: seq<Call>)
    requires w.error != NO_ERROR && AllFair(w, calls)
    ensures Steps(w, calls) == w
    decreases |calls|
  {
    hide Step, Fair;
    if calls != [] {
      NothingWithError(w, calls[0]);
      ErrorStays(w, calls[1..]);
    }
  }

  lemma NothingWithError(w: World, c: Call)
    requires w.error != NO_ERROR && Fair(w, c)
    ensures Step(w, c) == w
  {}

  /** A thread that cannot be suspended, or no memory to list it: the error is what the commit returns
      after any further calls, and nothing has happened. */
  lemma UpdateErrorAborts(w: World, caller: nat, protect: int, before: seq<Call>, c: Call, after: seq<Call>)
    requires w.owner == 0 && AllFair(Begin(w, caller, protect).world, before)
    requires var at := Steps(Begin(w, caller, protect).world, before);
      && c.CallUpdate? && !c.self && (!c.memory || c.suspendError != NO_ERROR) && at.error == NO_ERROR
      && AllFair(Step(at, c), after)
    ensures var end := Steps(Step(Steps(Begin(w, caller, protect).world, before), c), after);
      && Restored(w, Commit(end, caller).world)
      && Commit(end, caller).code == if c.memory then c.suspendError else ERROR_NOT_ENOUGH_MEMORY
  {
    var b := Begin(w, caller, protect).world;
    var at := Steps(b, before);
    BeginIsPending(w, caller, protect);
    CallsKeepPending(b, b, before);
    StepKeepsPending(b, at, c);
    UpdateSuspends(at, c);
    ErrorStays(Step(at, c), after);
    hide Step, Fair, Pending;
    AbortRestores(b, Step(at, c));
    SameStart(w, caller, protect);
    CallsOwner(b, Step(at, c));
  }

  lemma CallsOwner(b: World, w: World)
    requires Pending(b, w)
    ensures w.owner == b.owner
  {}

  lemma SameStart(w: World, caller: nat, protect: int)
    requires w.owner == 0
    ensures var b := Begin(w, caller, protect).world;
      b.mem == w.mem && b.pointers == w.pointers && b.tramps == w.tramps && b.suspend == w.suspend && b.owner == caller
  {}
}
