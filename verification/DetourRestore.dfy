/** Hooks that do not overlap can be taken out again: the code is as if they had never been there. */
module DetourRestore {
  import opened Basics
  import opened DetourWindow
  import opened DetourTransaction

  /** Trampolines whose jump is in place. */
  function Live(w: World): set<nat> { w.tramps.Keys - Slots(w.ops, false) }

  predicate Covers(t: Trampoline, a: int) { t.Target() <= a < t.remain }

  predicate SaneTrampoline(t: Trampoline, size: nat) {
    0 <= t.Target() && t.remain <= size && SIZE_OF_JMP <= |t.restore| <= SIZE_OF_CODE
  }

  predicate AllSane(tramps: map<nat, Trampoline>, size: nat) {
    0 !in tramps && forall s :: s in tramps ==> SaneTrampoline(tramps[s], size)
  }

  predicate Sane(w: World) { AllSane(w.tramps, |w.mem|) }

  predicate Apart(tramps: map<nat, Trampoline>) {
    forall s, s' :: s in tramps && s' in tramps && s != s' ==>
      tramps[s].remain <= tramps[s'].Target() || tramps[s'].remain <= tramps[s].Target()
  }

  /** Every trampoline is in reach of its target. */
  predicate Near(tramps: map<nat, Trampoline>) {
    forall s :: s in tramps ==> s + TRAMPOLINE < SIZE_64 && tramps[s].remain < SIZE_64 && InReach(s, tramps[s].Target())
  }

  /** No target is a trampoline. */
  predicate Outside(tramps: map<nat, Trampoline>) { forall s :: s in tramps ==> tramps[s].Target() !in tramps.Keys }

  /** The code is `base` with the jumps of the live trampolines written over it, and every trampoline
      has saved the bytes of `base` it covers. */
  ghost predicate CodeOk(w: World, base: seq<byte>) {
    && |w.mem| == |base|
    && (forall s :: s in w.tramps ==> HasAt(base, w.tramps[s].Target(), w.tramps[s].restore))
    && (forall s :: s in Live(w) && w.tramps[s].Target() >= 0 ==>
          HasAt(w.mem, w.tramps[s].Target(), Jump(w.tramps[s].Target(), s, |w.tramps[s].restore|)))
    && (forall a :: 0 <= a < |base| && (forall s :: s in Live(w) ==> !Covers(w.tramps[s], a)) ==> w.mem[a] == base[a])
  }

  /** A pointer to a live trampoline stands for its target; no trampoline has two pointers. */
  predicate PointersOk(w: World, code: map<nat, nat>) {
    && w.pointers.Keys == code.Keys
    && (forall p :: p in code ==>
          code[p] == if w.pointers[p] in Live(w) then w.tramps[w.pointers[p]].Target() else w.pointers[p])
    && (forall p, q :: p in code && q in code && p != q && w.pointers[p] == w.pointers[q] ==>
        w.pointers[p] !in w.tramps)
  }

  predicate OpOk(w: World, o: Op) {
    && o.slot in w.tramps && o.target == w.tramps[o.slot].Target() && o.pointer in w.pointers
    && if o.isRemove then w.pointers[o.pointer] == o.slot
       else w.pointers[o.pointer] !in w.tramps && forall p :: p in w.pointers ==> w.pointers[p] != o.slot
  }

  predicate OpsOk(w: World) {
    && (forall k :: 0 <= k < |w.ops| ==> OpOk(w, w.ops[k]))
    && (forall j, k :: 0 <= j < k < |w.ops| ==> w.ops[j].slot != w.ops[k].slot && w.ops[j].pointer != w.ops[k].pointer)
  }

  ghost predicate Overlay(w: World, base: seq<byte>, code: map<nat, nat>) {
    Sane(w) && Apart(w.tramps) && Outside(w.tramps) && Near(w.tramps) && CodeOk(w, base) && PointersOk(w, code)
        && OpsOk(w)
  }

  /** Nothing hooked: the original code and pointers. */
  lemma NoHooksLeft(w: World, base: seq<byte>, code: map<nat, nat>)
    requires Overlay(w, base, code) && w.tramps == map[]
    ensures w.mem == base && w.pointers == code
  {
    assert Live(w) == {};
  }

  // ---------------------------------------------------------------- calls that do not conflict

  predicate Disjoint(tramps: map<nat, Trampoline>, from: int, to: int) {
    forall s :: s in tramps ==> tramps[s].remain <= from || to <= tramps[s].Target()
  }

  predicate OutsideWith(tramps: map<nat, Trampoline>, slot: nat, target: nat) {
    target != slot && target !in tramps && forall s :: s in tramps ==> tramps[s].Target() != slot
  }

  predicate FreshIn(ops: seq<Op>, slot: nat, pointer: nat) {
    forall k :: 0 <= k < |ops| ==> ops[k].slot != slot && ops[k].pointer != pointer
  }

  /** An attach covers bytes no other trampoline covers, through a pointer that is not hooked, and gets a
      trampoline in the window that nobody points to and that is nobody's target. */
  predicate NoConflict(w: World, x: AttachInput) {
    && Disjoint(w.tramps, x.target, x.target + x.moved) && InWindow(w.mem, x.target, x.slot)
    && (forall p :: p in w.pointers ==> w.pointers[p] != x.slot)
    && Deref(w, x.pointer) !in w.tramps && FreshIn(w.ops, x.slot, x.pointer)
    && OutsideWith(w.tramps, x.slot, x.target)
  }

  /** A detach names the trampoline its pointer leads to, once. */
  predicate NamedOnce(w: World, x: DetachInput) {
    x.slot == Deref(w, x.pointer) && x.slot !in Slots(w.ops, false) && FreshIn(w.ops, x.slot, x.pointer)
  }

  /** A call that fails or does nothing is clean. */
  predicate Clean(w: World, c: Call)
    requires Fair(w, c)
  {
    match c
    case CallAttach(_, x, _) => |Step(w, c).ops| > |w.ops| ==> NoConflict(w, x)
    case CallDetach(_, x, _) => |Step(w, c).ops| > |w.ops| ==> NamedOnce(w, x)
    case CallUpdate(_, _, _, _) => true
  }

  lemma SameLive(w: World, w': World)
    requires w'.ops != [] && w'.ops == [w'.ops[0]] + w.ops
    requires if w'.ops[0].isRemove then w'.tramps == w.tramps
             else w'.ops[0].slot !in w.tramps && w'.tramps.Keys == w.tramps.Keys + {w'.ops[0].slot}
    ensures Live(w') == Live(w)
  {
    SlotsCons(w'.ops[0], w.ops, false);
  }

  /** Bytes that no live trampoline covers are those of the base. */
  lemma Uncovered(w: World, base: seq<byte>, from: nat, to: nat)
    requires CodeOk(w, base) && Disjoint(w.tramps, from, to) && from <= to <= |w.mem|
    ensures HasAt(base, from, w.mem[from..to])
  {
    hide HasAt, Jump, Slots;
    forall a | from <= a < to ensures w.mem[a] == base[a] {
      assert forall s :: s in Live(w) ==> !Covers(w.tramps[s], a);
    }
    SamePart(w.mem, base, from, to);
  }

  lemma SamePart(mem: seq<byte>, base: seq<byte>, from: nat, to: nat)
    requires |mem| == |base| && from <= to <= |mem| && forall a :: from <= a < to ==> mem[a] == base[a]
    ensures HasAt(base, from, mem[from..to])
  {}

  lemma AttachedIs(w: World, w': World, x: AttachInput)
    requires Attached(w, w', x) && x.slot !in w.tramps
    ensures w'.mem == w.mem && Live(w') == Live(w) && (forall s :: s in Live(w) ==> s in w.tramps && s != x.slot)
    ensures x.target + x.moved <= |w.mem|
    ensures var t := Trampoline(w.mem[x.target..x.target + x.moved], x.target + x.moved, x.realDetour);
      w'.tramps == w.tramps[x.slot := t] && t.Target() == x.target
  {
    SameLive(w, w');
  }

  lemma AttachedCode(w: World, w': World, x: AttachInput, base: seq<byte>)
    requires CodeOk(w, base) && Attached(w, w', x) && x.slot !in w.tramps
        && Disjoint(w.tramps, x.target, x.target + x.moved)
    ensures CodeOk(w', base)
  {
    hide Attached, HasAt, Jump, Slots, Live, Covers, Disjoint;
    AttachedIs(w, w', x);
    Uncovered(w, base, x.target, x.target + x.moved);
    assert forall s :: s in Live(w) ==> w'.tramps[s] == w.tramps[s];
  }

  lemma AttachedOps(w: World, w': World, x: AttachInput)
    requires OpsOk(w) && Attached(w, w', x) && x.slot !in w.tramps
    requires (forall p :: p in w.pointers ==> w.pointers[p] != x.slot) && Deref(w, x.pointer) !in w.tramps
    requires FreshIn(w.ops, x.slot, x.pointer)
    ensures OpsOk(w')
  {
    forall k | 0 <= k < |w'.ops| ensures OpOk(w', w'.ops[k]) {
      if k > 0 { assert w'.ops[k] == w.ops[k - 1] && OpOk(w, w.ops[k - 1]); }
    }
  }

  lemma OneMoreSane(tramps: map<nat, Trampoline>, slot: nat, t: Trampoline, size: nat)
    requires AllSane(tramps, size) && SaneTrampoline(t, size) && slot != 0
    ensures AllSane(tramps[slot := t], size)
  {
    hide SaneTrampoline;
  }

  lemma OneMoreApart(tramps: map<nat, Trampoline>, slot: nat, t: Trampoline)
    requires Apart(tramps) && slot !in tramps && Disjoint(tramps, t.Target(), t.remain)
    ensures Apart(tramps[slot := t])
  {}

  lemma AttachedOutside(w: World, w': World, x: AttachInput)
    requires Outside(w.tramps) && Attached(w, w', x) && OutsideWith(w.tramps, x.slot, x.target)
    ensures Outside(w'.tramps)
  {}

  lemma AttachedNear(w: World, w': World, x: AttachInput)
    requires Near(w.tramps) && Attached(w, w', x) && x.slot !in w.tramps && InWindow(w.mem, x.target, x.slot)
    ensures Near(w'.tramps)
  {
    hide FindBounds, Slots;
    AttachedIs(w, w', x);
    WindowIsInReach(x.target, w.mem[x.target..x.target + 6], x.slot);
  }

  lemma AttachedPointers(w: World, w': World, x: AttachInput, code: map<nat, nat>)
    requires PointersOk(w, code) && Attached(w, w', x) && x.slot !in w.tramps
    requires forall p :: p in w.pointers ==> w.pointers[p] != x.slot
    ensures PointersOk(w', code)
  {
    SameLive(w, w');
    hide Slots;
  }

  lemma AttachedOverlays(w: World, w': World, x: AttachInput, base: seq<byte>, code: map<nat, nat>)
    requires Overlay(w, base, code) && Attached(w, w', x) && x.slot !in w.tramps
        && Disjoint(w.tramps, x.target, x.target + x.moved)
    requires (forall p :: p in w.pointers ==> w.pointers[p] != x.slot) && Deref(w, x.pointer) !in w.tramps
    requires FreshIn(w.ops, x.slot, x.pointer) && OutsideWith(w.tramps, x.slot, x.target)
    requires InWindow(w.mem, x.target, x.slot)
    ensures Overlay(w', base, code)
  {
    AttachedOutside(w, w', x);
    AttachedNear(w, w', x);
    hide Outside, OutsideWith, Near, InWindow, Attached, CodeOk, OpsOk, PointersOk, Sane, Apart, Disjoint, FreshIn;
    AttachedCode(w, w', x, base);
    AttachedOps(w, w', x);
    AttachedIs(w, w', x);
    OneMoreSane(w.tramps, x.slot, w'.tramps[x.slot], |w.mem|);
    OneMoreApart(w.tramps, x.slot, w'.tramps[x.slot]);
    AttachedPointers(w, w', x, code);
  }

  lemma DetachedOverlays(w: World, w': World, x: DetachInput, base: seq<byte>, code: map<nat, nat>)
    requires Overlay(w, base, code) && Detached(w, w', x)
    requires x.slot == Deref(w, x.pointer) && FreshIn(w.ops, x.slot, x.pointer)
    ensures Overlay(w', base, code)
  {
    hide Slots, Jump, HasAt;
    SameLive(w, w');
    DetachedOps(w, w', x);
    hide Live, OpsOk, Outside, Apart, Sane, Covers;
  }

  lemma DetachedOps(w: World, w': World, x: DetachInput)
    requires OpsOk(w) && Detached(w, w', x) && x.slot == Deref(w, x.pointer) && FreshIn(w.ops, x.slot, x.pointer)
    ensures OpsOk(w')
  {
    forall k | 0 <= k < |w'.ops| ensures OpOk(w', w'.ops[k]) {
      if k > 0 { assert w'.ops[k] == w.ops[k - 1] && OpOk(w, w.ops[k - 1]); }
    }
  }

  lemma Unaffected(w: World, w': World, base: seq<byte>, code: map<nat, nat>)
    requires Overlay(w, base, code)
    requires w'.mem == w.mem && w'.pointers == w.pointers && w'.tramps == w.tramps && w'.ops == w.ops
    ensures Overlay(w', base, code)
  {
    hide Slots, Jump, HasAt;
    assert Live(w') == Live(w);
    forall k | 0 <= k < |w'.ops| ensures OpOk(w', w'.ops[k]) { assert OpOk(w, w.ops[k]); }
  }

  lemma AttachedAdds(w: World, w': World, c: Call)
    ensures c.CallAttach? && Attached(w, w', c.attach) ==> |w'.ops| > |w.ops|
    ensures c.CallDetach? && Detached(w, w', c.detach) ==> |w'.ops| > |w.ops|
  {}

  /** Calls that do not conflict keep the overlay. */
  lemma CallKeepsOverlay(w: World, c: Call, base: seq<byte>, code: map<nat, nat>)
    requires Overlay(w, base, code) && Fair(w, c) && Clean(w, c)
    ensures Overlay(Step(w, c), base, code)
  {
    var w' := Step(w, c);
    WhatStepsDo(w, c);
    AttachedAdds(w, w', c);
    hide Step, Overlay, Attached, Detached, Disjoint, FreshIn, Slots, OutsideWith, InWindow;
    if c.CallAttach? && Attached(w, w', c.attach) { AttachedOverlays(w, w', c.attach, base, code); }
    else if c.CallDetach? && Detached(w, w', c.detach) { DetachedOverlays(w, w', c.detach, base, code); }
    else { Unaffected(w, w', base, code); }
  }

  // ---------------------------------------------------------------- commit: the code

  predicate Writes(o: Op, tramps: map<nat, Trampoline>, a: int) {
    o.target <= a < o.target + |Written(o, tramps)|
  }

  predicate Room(mem: seq<byte>, ops: seq<Op>, tramps: map<nat, Trampoline>) {
    forall k :: 0 <= k < |ops| ==> ops[k].target + |Written(ops[k], tramps)| <= |mem|
  }

  lemma {:induction false} PatchedOutside(mem: seq<byte>, ops: seq<Op>, tramps: map<nat, Trampoline>, a: nat)
    requires a < |mem| && Room(mem, ops, tramps) && forall k :: 0 <= k < |ops| ==> !Writes(ops[k], tramps, a)
    ensures Patched(mem, ops, tramps)[a] == mem[a]
    decreases |ops|
  {
    hide Written, Overwrite;
    if ops != [] {
      OverwriteAt(mem, ops[0].target, Written(ops[0], tramps), a);
      PatchedOutside(Overwrite(mem, ops[0].target, Written(ops[0], tramps)), ops[1..], tramps, a);
    }
  }

  lemma {:induction false} PatchedInside(mem: seq<byte>, ops: seq<Op>, tramps: map<nat, Trampoline>, k: nat, a: nat)
    requires a < |mem| && Room(mem, ops, tramps) && k < |ops| && Writes(ops[k], tramps, a)
    requires forall j :: 0 <= j < |ops| && j != k ==> !Writes(ops[j], tramps, a)
    ensures Patched(mem, ops, tramps)[a] == Written(ops[k], tramps)[a - ops[k].target]
    decreases |ops|
  {
    hide Written, Overwrite;
    var mem' := Overwrite(mem, ops[0].target, Written(ops[0], tramps));
    OverwriteAt(mem, ops[0].target, Written(ops[0], tramps), a);
    if k == 0 { PatchedOutside(mem', ops[1..], tramps, a); } else { PatchedInside(mem', ops[1..], tramps, k - 1, a); }
  }

  /** An operation writes exactly the bytes its trampoline covers. */
  lemma WritesWhatItCovers(w: World, k: nat)
    requires Sane(w) && OpsOk(w) && k < |w.ops|
    ensures var o := w.ops[k]; var t := w.tramps[o.slot];
      |Written(o, w.tramps)| == |t.restore| && o.target + |Written(o, w.tramps)| == t.remain <= |w.mem|
    ensures forall a :: Writes(w.ops[k], w.tramps, a) <==> Covers(w.tramps[w.ops[k].slot], a)
  {
    assert OpOk(w, w.ops[k]);
    hide Jump;
  }

  lemma AllHaveRoom(w: World)
    requires Sane(w) && OpsOk(w)
    ensures Room(w.mem, w.ops, w.tramps)
  {
    hide Written;
    forall k | 0 <= k < |w.ops|
      ensures w.ops[k].target + |Written(w.ops[k], w.tramps)| <= |w.mem| { WritesWhatItCovers(w, k); }
  }

  /** A byte covered by the trampoline of an operation is written by it alone. */
  lemma CoveredByte(w: World, k: nat, a: nat)
    requires Sane(w) && Apart(w.tramps) && OpsOk(w) && k < |w.ops| && w.ops[k].slot in w.tramps
        && Covers(w.tramps[w.ops[k].slot], a) && a < |w.mem|
    ensures w.ops[k].target <= a < w.ops[k].target + |Written(w.ops[k], w.tramps)|
    ensures Patched(w.mem, w.ops, w.tramps)[a] == Written(w.ops[k], w.tramps)[a - w.ops[k].target]
  {
    hide Written, Patched;
    AllHaveRoom(w);
    WritesWhatItCovers(w, k);
    forall j | 0 <= j < |w.ops| && j != k ensures !Writes(w.ops[j], w.tramps, a) {
      WritesWhatItCovers(w, j);
      assert OpOk(w, w.ops[j]) && w.ops[j].slot != w.ops[k].slot;
    }
    PatchedInside(w.mem, w.ops, w.tramps, k, a);
  }

  lemma UncoveredByte(w: World, a: nat)
    requires Sane(w) && OpsOk(w) && a < |w.mem|
    requires forall k :: 0 <= k < |w.ops| ==> w.ops[k].slot in w.tramps && !Covers(w.tramps[w.ops[k].slot], a)
    ensures Patched(w.mem, w.ops, w.tramps)[a] == w.mem[a]
  {
    hide Written, Patched;
    AllHaveRoom(w);
    forall k | 0 <= k < |w.ops| ensures !Writes(w.ops[k], w.tramps, a) { WritesWhatItCovers(w, k); }
    PatchedOutside(w.mem, w.ops, w.tramps, a);
  }

  /** The world after a commit that goes through. */
  function Committed(w: World): World { Commit(w.(error := NO_ERROR), w.owner).world }

  lemma CommittedIs(w: World)
    ensures var w' := Committed(w);
      && w'.mem == Patched(w.mem, w.ops, w.tramps) && w'.pointers == Repointed(w.pointers, w.ops)
      && w'.tramps == w.tramps - Slots(w.ops, true) && w'.ops == []
      && Live(w') == w.tramps.Keys - Slots(w.ops, true)
  {
    assert Slots([], false) == {};
  }

  lemma HasAtPointwise(mem: seq<byte>, at: nat, part: seq<byte>)
    requires at + |part| <= |mem| && forall a :: at <= a < at + |part| ==> mem[a] == part[a - at]
    ensures HasAt(mem, at, part)
  {}

  lemma PartAt(mem: seq<byte>, at: nat, part: seq<byte>, a: nat)
    requires HasAt(mem, at, part) && at <= a < at + |part|
    ensures mem[a] == part[a - at]
  {
    assert mem[at..at + |part|][a - at] == mem[a];
  }

  lemma SlotOfOp(ops: seq<Op>, isRemove: bool, s: nat) returns (k: nat)
    requires s in Slots(ops, isRemove)
    ensures k < |ops| && ops[k].isRemove == isRemove && ops[k].slot == s
  {
    k :| 0 <= k < |ops| && ops[k].isRemove == isRemove && ops[k].slot == s;
  }

  lemma OpInSlots(ops: seq<Op>, k: nat)
    requires k < |ops|
    ensures ops[k].slot in Slots(ops, ops[k].isRemove)
  {}

  /** Live after the commit: its jump is there. */
  lemma JumpIsThere(w: World, base: seq<byte>, s: nat, a: nat)
    requires Sane(w) && Apart(w.tramps) && CodeOk(w, base) && OpsOk(w)
    requires s in w.tramps && s !in Slots(w.ops, true) && Covers(w.tramps[s], a)
    ensures var t := w.tramps[s]; var j := Jump(t.Target(), s, |t.restore|);
      |j| == |t.restore| && a < |w.mem| && Patched(w.mem, w.ops, w.tramps)[a] == j[a - t.Target()]
  {
    hide Patched, Jump, Slots;
    var t := w.tramps[s];
    if s in Slots(w.ops, false) {
      var k := SlotOfOp(w.ops, false, s);
      assert OpOk(w, w.ops[k]);
      CoveredByte(w, k, a);
    } else {
      forall k | 0 <= k < |w.ops| ensures w.ops[k].slot in w.tramps && !Covers(w.tramps[w.ops[k].slot], a) {
        assert OpOk(w, w.ops[k]);
        OpInSlots(w.ops, k);
      }
      UncoveredByte(w, a);
      assert s in Live(w);
      PartAt(w.mem, t.Target(), Jump(t.Target(), s, |t.restore|), a);
    }
  }

  /** Not live after the commit: the byte of the base. */
  lemma BaseIsThere(w: World, base: seq<byte>, a: nat)
    requires Sane(w) && Apart(w.tramps) && CodeOk(w, base) && OpsOk(w) && a < |w.mem|
    requires forall s :: s in w.tramps && s !in Slots(w.ops, true) ==> !Covers(w.tramps[s], a)
    ensures Patched(w.mem, w.ops, w.tramps)[a] == base[a]
  {
    hide Patched, Jump, Slots;
    if k :| 0 <= k < |w.ops| && w.ops[k].slot in w.tramps && Covers(w.tramps[w.ops[k].slot], a) {
      OpInSlots(w.ops, k);
      var t := w.tramps[w.ops[k].slot];
      assert OpOk(w, w.ops[k]);
      RemoveWrites(w, k);
      CoveredByte(w, k, a);
      PartAt(base, t.Target(), t.restore, a);
    } else {
      assert forall k :: 0 <= k < |w.ops| ==> OpOk(w, w.ops[k]);
      UncoveredByte(w, a);
      forall s | s in Live(w) ensures !Covers(w.tramps[s], a) {
        if s in Slots(w.ops, true) { var k := SlotOfOp(w.ops, true, s); }
      }
    }
  }

  lemma RemoveWrites(w: World, k: nat)
    requires Apart(w.tramps) && OpsOk(w) && k < |w.ops|
    ensures w.ops[k].slot in w.tramps
    ensures w.ops[k].slot in Slots(w.ops, true) ==> Written(w.ops[k], w.tramps) == w.tramps[w.ops[k].slot].restore
  {
    assert OpOk(w, w.ops[k]);
    if w.ops[k].slot in Slots(w.ops, true) { var j := SlotOfOp(w.ops, true, w.ops[k].slot); }
  }

  lemma CommittedCode(w: World, base: seq<byte>)
    requires Sane(w) && Apart(w.tramps) && CodeOk(w, base) && OpsOk(w)
    ensures CodeOk(Committed(w), base)
  {
    CommittedIs(w);
    hide Committed, Patched, Jump, Slots, Live, HasAt;
    var w' := Committed(w);
    forall s | s in Live(w') && w'.tramps[s].Target() >= 0
      ensures HasAt(w'.mem, w'.tramps[s].Target(), Jump(w'.tramps[s].Target(), s, |w'.tramps[s].restore|))
    {
      var t := w.tramps[s];
      var j := Jump(t.Target(), s, |t.restore|);
      forall a | t.Target() <= a < t.remain
        ensures |j| == |t.restore| && w'.mem[a] == j[a - t.Target()] { JumpIsThere(w, base, s, a); }
      assert |j| == |t.restore|;
      HasAtPointwise(w'.mem, t.Target(), j);
    }
    forall a | 0 <= a < |base| && forall s :: s in Live(w') ==> !Covers(w'.tramps[s], a) ensures w'.mem[a] == base[a] {
      assert forall s :: s in w.tramps && s !in Slots(w.ops, true) ==> s in Live(w') && w'.tramps[s] == w.tramps[s];
      BaseIsThere(w, base, a);
    }
  }

  // ---------------------------------------------------------------- commit: the pointers

  predicate PointersDiffer(ops: seq<Op>) { forall j, k :: 0 <= j < k < |ops| ==> ops[j].pointer != ops[k].pointer }

  function NewValue(o: Op): nat { if o.isRemove then o.target else o.slot }

  /** What the pointers stand for after the operations: an attached pointer for its target. */
  function Retargeted(code: map<nat, nat>, ops: seq<Op>): map<nat, nat>
    decreases |ops|
  {
    if ops == [] then code
    else Retargeted(if ops[0].isRemove then code else code[ops[0].pointer := ops[0].target], ops[1..])
  }

  lemma {:induction false} PointerUntouched(pointers: map<nat, nat>, ops: seq<Op>, p: nat)
    requires forall k :: 0 <= k < |ops| ==> ops[k].pointer != p
    ensures p in Repointed(pointers, ops) <==> p in pointers
    ensures p in pointers ==> Repointed(pointers, ops)[p] == pointers[p]
    ensures p in Retargeted(pointers, ops) <==> p in pointers
    ensures p in pointers ==> Retargeted(pointers, ops)[p] == pointers[p]
    decreases |ops|
  {
    if ops != [] {
      PointerUntouched(pointers[ops[0].pointer := NewValue(ops[0])], ops[1..], p);
      PointerUntouched(if ops[0].isRemove then pointers else pointers[ops[0].pointer := ops[0].target], ops[1..], p);
    }
  }

  lemma {:induction false} PointerSet(pointers: map<nat, nat>, code: map<nat, nat>, ops: seq<Op>, k: nat)
    requires PointersDiffer(ops) && k < |ops| && ops[k].pointer in code
    ensures var p := ops[k].pointer;
      && p in Repointed(pointers, ops) && Repointed(pointers, ops)[p] == NewValue(ops[k])
      && p in Retargeted(code, ops) && Retargeted(code, ops)[p] == if ops[k].isRemove then code[p] else ops[k].target
    decreases |ops|
  {
    var p, rest := ops[k].pointer, ops[1..];
    var pointers' := pointers[ops[0].pointer := NewValue(ops[0])];
    var code' := if ops[0].isRemove then code else code[ops[0].pointer := ops[0].target];
    if k == 0 {
      PointerUntouched(pointers', rest, p);
      PointerUntouched(code', rest, p);
    } else {
      PointerSet(pointers', code', rest, k - 1);
    }
  }

  lemma {:induction false} KeysStay(pointers: map<nat, nat>, ops: seq<Op>)
    requires forall k :: 0 <= k < |ops| ==> ops[k].pointer in pointers
    ensures Repointed(pointers, ops).Keys == pointers.Keys && Retargeted(pointers, ops).Keys == pointers.Keys
    decreases |ops|
  {
    if ops != [] {
      var p' := pointers[ops[0].pointer := NewValue(ops[0])];
      var c' := if ops[0].isRemove then pointers else pointers[ops[0].pointer := ops[0].target];
      assert p'.Keys == pointers.Keys && c'.Keys == pointers.Keys;
      KeysStay(p', ops[1..]);
      KeysStay(c', ops[1..]);
    }
  }

  predicate Touched(ops: seq<Op>, p: nat) { exists k :: 0 <= k < |ops| && ops[k].pointer == p }

  /** A pointer of an operation leads to the trampoline, or back to the target. */
  lemma TouchedPointer(w: World, code: map<nat, nat>, k: nat)
    requires OpsOk(w) && PointersOk(w, code) && Outside(w.tramps) && k < |w.ops|
    ensures var w', o := Committed(w), w.ops[k]; var p := o.pointer;
      && p in code && p in w'.pointers && w'.pointers[p] == NewValue(o) && p in Retargeted(code, w.ops)
      && Retargeted(code, w.ops)[p] == o.target && o.slot in w.tramps && w.tramps[o.slot].Target() == o.target
      && (o.isRemove ==> w'.pointers[p] !in w.tramps) && (!o.isRemove ==> o.slot in Live(w'))
  {
    CommittedIs(w);
    hide Committed, Repointed, Retargeted, Slots;
    var o := w.ops[k];
    assert OpOk(w, o);
    PointerSet(w.pointers, code, w.ops, k);
    if o.isRemove {
      assert o.slot in Live(w) by {
        if o.slot in Slots(w.ops, false) { var j := SlotOfOp(w.ops, false, o.slot); }
      }
    } else {
      if o.slot in Slots(w.ops, true) { var j := SlotOfOp(w.ops, true, o.slot); }
    }
  }

  lemma UntouchedPointer(w: World, code: map<nat, nat>, p: nat)
    requires OpsOk(w) && PointersOk(w, code) && p in code && !Touched(w.ops, p)
    ensures var w' := Committed(w);
      && p in w'.pointers && w'.pointers[p] == w.pointers[p] && p in Retargeted(code, w.ops)
          && Retargeted(code, w.ops)[p] == code[p]
      && (w.pointers[p] in Live(w') <==> w.pointers[p] in Live(w))
  {
    CommittedIs(w);
    PointerUntouched(w.pointers, w.ops, p);
    PointerUntouched(code, w.ops, p);
    hide Committed, Repointed, Retargeted, Slots;
    var v := w.pointers[p];
    if v in Slots(w.ops, true) {
      var k := SlotOfOp(w.ops, true, v);
    }
    if v in Slots(w.ops, false) {
      var k := SlotOfOp(w.ops, false, v);
      assert OpOk(w, w.ops[k]);
    }
  }

  lemma CommittedPointers(w: World, code: map<nat, nat>)
    requires OpsOk(w) && PointersOk(w, code) && Outside(w.tramps)
    ensures PointersOk(Committed(w), Retargeted(code, w.ops))
  {
    CommittedIs(w);
    var w', code' := Committed(w), Retargeted(code, w.ops);
    forall k | 0 <= k < |w.ops| ensures w.ops[k].pointer in w.pointers { assert OpOk(w, w.ops[k]); }
    KeysStay(w.pointers, w.ops);
    KeysStay(code, w.ops);
    hide Committed, Repointed, Retargeted, Slots, Live;
    forall p | p in code
      ensures code'[p] == if w'.pointers[p] in Live(w') then w'.tramps[w'.pointers[p]].Target() else w'.pointers[p]
    {
      if Touched(w.ops, p) {
        var k :| 0 <= k < |w.ops| && w.ops[k].pointer == p;
        TouchedPointer(w, code, k);
      } else {
        UntouchedPointer(w, code, p);
      }
    }
    forall p, q | p in code && q in code && p != q && w'.pointers[p] == w'.pointers[q]
      ensures w'.pointers[p] !in w'.tramps {
      NoSharing(w, code, p, q);
    }
  }

  lemma NoSharing(w: World, code: map<nat, nat>, p: nat, q: nat)
    requires OpsOk(w) && PointersOk(w, code) && Outside(w.tramps) && p in code && q in code && p != q
    requires p in Committed(w).pointers && q in Committed(w).pointers
        && Committed(w).pointers[p] == Committed(w).pointers[q]
    ensures Committed(w).pointers[p] !in w.tramps
  {
    hide Committed, Retargeted, Slots, Live;
    if Touched(w.ops, p) {
      var j :| 0 <= j < |w.ops| && w.ops[j].pointer == p;
      TouchedPointer(w, code, j);
      assert OpOk(w, w.ops[j]);
    } else {
      UntouchedPointer(w, code, p);
    }
    if Touched(w.ops, q) {
      var k :| 0 <= k < |w.ops| && w.ops[k].pointer == q;
      TouchedPointer(w, code, k);
      assert OpOk(w, w.ops[k]);
    } else {
      UntouchedPointer(w, code, q);
    }
  }

  lemma FewerTrampolines(w: World, w': World, gone: set<nat>)
    requires Sane(w) && Apart(w.tramps) && Outside(w.tramps) && Near(w.tramps)
    requires w'.tramps == w.tramps - gone && |w'.mem| == |w.mem|
    ensures Sane(w') && Apart(w'.tramps) && Outside(w'.tramps) && Near(w'.tramps)
  {
    hide SaneTrampoline;
  }

  /** A commit keeps the overlay. */
  lemma CommitKeepsOverlay(w: World, base: seq<byte>, code: map<nat, nat>)
    requires Overlay(w, base, code)
    ensures Overlay(Committed(w), base, Retargeted(code, w.ops))
  {
    CommittedCode(w, base);
    CommittedPointers(w, code);
    CommittedIs(w);
    FewerTrampolines(w, Committed(w), Slots(w.ops, true));
    hide Committed, CodeOk, PointersOk, Sane, Apart, Outside, Near, Retargeted, Patched, Repointed, Slots, OpOk;
  }

  lemma AbortIs(w: World)
    ensures var w' := Abort(w, w.owner).world;
      && w'.mem == w.mem && w'.pointers == w.pointers && w'.tramps == w.tramps - Slots(w.ops, false) && w'.ops == []
      && w'.owner == 0 && Live(w') == Live(w)
  {
    assert Slots([], false) == {};
  }

  lemma AbortedCode(w: World, w': World, base: seq<byte>)
    requires CodeOk(w, base) && w'.mem == w.mem && w'.tramps == w.tramps - Slots(w.ops, false) && Live(w') == Live(w)
    ensures CodeOk(w', base)
  {
    hide Slots, Jump, HasAt;
    assert forall s :: s in Live(w) ==> w'.tramps[s] == w.tramps[s];
  }

  lemma AbortedPointers(w: World, w': World, code: map<nat, nat>)
    requires PointersOk(w, code) && w'.pointers == w.pointers && w'.tramps == w.tramps - Slots(w.ops, false)
        && Live(w') == Live(w)
    ensures PointersOk(w', code)
  {
    hide Slots;
    assert forall s :: s in Live(w) ==> w'.tramps[s] == w.tramps[s];
  }

  /** So does an abort. */
  lemma AbortKeepsOverlay(w: World, base: seq<byte>, code: map<nat, nat>)
    requires Overlay(w, base, code)
    ensures Overlay(Abort(w, w.owner).world, base, code)
  {
    var w' := Abort(w, w.owner).world;
    AbortIs(w);
    AbortedCode(w, w', base);
    AbortedPointers(w, w', code);
    FewerTrampolines(w, w', Slots(w.ops, false));
    hide Slots, CodeOk, PointersOk, Sane, Apart, Outside, Near, OpOk, Abort;
  }

  // ---------------------------------------------------------------- any run

  predicate CleanEvent(w: World, e: Event)
    requires FairEvent(w, e)
  {
    e.Calls? ==> Clean(w, e.call)
  }

  function NextCode(w: World, code: map<nat, nat>, e: Event): map<nat, nat> {
    if e.Commits? && w.owner == e.caller && w.error == NO_ERROR then Retargeted(code, w.ops) else code
  }

  predicate Idle(w: World) { w.owner == 0 ==> w.ops == [] }

  lemma CallKeepsIdle(w: World, c: Call)
    requires Idle(w) && Fair(w, c) && (c.CallAttach? || c.CallDetach? ==> c.caller != 0)
    ensures Idle(Step(w, c))
  {}

  lemma EventKeepsOverlay(w: World, e: Event, base: seq<byte>, code: map<nat, nat>)
    requires Overlay(w, base, code) && Idle(w) && FairEvent(w, e) && CleanEvent(w, e)
    ensures Overlay(Next(w, e), base, NextCode(w, code, e)) && Idle(Next(w, e))
  {
    hide Overlay, Step, Retargeted, Slots, Patched, Repointed, Clean;
    match e
    case Starts(caller, protect) => if w.owner == 0 { Unaffected(w, Next(w, e), base, code); }
    case Calls(c) => CallKeepsOverlay(w, c, base, code); CallKeepsIdle(w, c);
    case Aborts(caller) => if w.owner == caller { AbortKeepsOverlay(w, base, code); }
    case Commits(caller) =>
      if w.owner == caller {
        if w.error == NO_ERROR { CommitKeepsOverlay(w, base, code); assert w.(error := NO_ERROR) == w; }
        else { AbortKeepsOverlay(w, base, code); }
      }
  }

  predicate CleanRun(w: World, run: seq<Event>)
    requires FairRun(w, run)
    decreases |run|
  {
    run == [] || (CleanEvent(w, run[0]) && CleanRun(Next(w, run[0]), run[1..]))
  }

  function CodeAfter(w: World, code: map<nat, nat>, run: seq<Event>): map<nat, nat>
    requires FairRun(w, run)
    decreases |run|
  {
    if run == [] then code else CodeAfter(Next(w, run[0]), NextCode(w, code, run[0]), run[1..])
  }

  lemma {:induction false} RunKeepsOverlay(w: World, run: seq<Event>, base: seq<byte>, code: map<nat, nat>)
    requires Overlay(w, base, code) && Idle(w) && FairRun(w, run) && CleanRun(w, run)
    ensures Overlay(After(w, run), base, CodeAfter(w, code, run)) && Idle(After(w, run))
    decreases |run|
  {
    hide Overlay, Idle, CleanEvent, FairEvent, Next, NextCode;
    if run != [] {
      EventKeepsOverlay(w, run[0], base, code);
      RunKeepsOverlay(Next(w, run[0]), run[1..], base, NextCode(w, code, run[0]));
    }
  }

  /** Over any run of transactions whose hooks do not overlap: no byte outside the live hooks differs
      from the original code, and once all trampolines are free again the code is the original and each
      pointer is at the target it was last attached to, or as it was. */
  lemma HooksComeOut(w: World, run: seq<Event>)
    requires w.owner == 0 && w.ops == [] && w.tramps == map[]
    requires FairRun(w, run) && CleanRun(w, run)
    ensures var end := After(w, run);
      && |end.mem| == |w.mem|
      && (forall a :: 0 <= a < |w.mem| && (forall s :: s in Live(end) ==> !Covers(end.tramps[s], a)) ==>
          end.mem[a] == w.mem[a])
      && (end.tramps == map[] ==> end.mem == w.mem && end.pointers == CodeAfter(w, w.pointers, run))
  {
    assert Slots([], false) == {};
    assert Overlay(w, w.mem, w.pointers);
    RunKeepsOverlay(w, run, w.mem, w.pointers);
    hide After, CodeAfter;
    var end := After(w, run);
    if end.tramps == map[] { NoHooksLeft(end, w.mem, CodeAfter(w, w.pointers, run)); }
  }

  /** Committing the removal of every trampoline gives everything back. */
  lemma AllDetached(w: World, base: seq<byte>, code: map<nat, nat>)
    requires Overlay(w, base, code) && forall s :: s in w.tramps ==> s in Slots(w.ops, true)
    ensures var w' := Committed(w); w'.tramps == map[] && w'.mem == base && w'.pointers == Retargeted(code, w.ops)
  {
    CommitKeepsOverlay(w, base, code);
    CommittedIs(w);
    hide Committed, Overlay, Slots, Retargeted, Patched, Repointed;
    NoHooksLeft(Committed(w), base, Retargeted(code, w.ops));
  }

  /** int3. */
  const BREAKPOINT: byte := 0xcc

  /** The code at a live hook jumps to rbCodeIn of its trampoline; breakpoints fill what is left of the
      instructions that were moved. */
  lemma LiveHookJumps(w: World, base: seq<byte>, code: map<nat, nat>, s: nat)
    requires Overlay(w, base, code) && s in Live(w)
    ensures var at := w.tramps[s].Target();
      0 <= at && at + 5 <= |w.mem| && at + 5 < SIZE_64 && s + TRAMPOLINE < SIZE_64
      && JmpDest(at, w.mem[at..at + 5]) == s + RB_CODE_IN
      && w.tramps[s].remain <= |w.mem| && forall a :: at + 5 <= a < w.tramps[s].remain ==> w.mem[a] == BREAKPOINT
  {
    hide PointersOk, OpsOk, Apart, Outside, JmpDest, JmpImmediate, Slots, Covers, HasAt, Jump;
    var t := w.tramps[s];
    assert SaneTrampoline(t, |w.mem|);
    var at, j := t.Target(), Jump(t.Target(), s, |t.restore|);
    FirstFive(w.mem, at, j);
    JumpStarts(at, s, |t.restore|);
    ImmediateLands(at, s + RB_CODE_IN);
    JumpIsFilled(w.mem, at, s, |t.restore|);
  }

  lemma JumpIsFilled(mem: seq<byte>, at: nat, slot: nat, n: nat)
    requires n >= SIZE_OF_JMP && HasAt(mem, at, Jump(at, slot, n))
    ensures at + n <= |mem| && forall a :: at + 5 <= a < at + n ==> mem[a] == BREAKPOINT
  {
    hide JmpImmediate;
    var j := Jump(at, slot, n);
    forall a | at + 5 <= a < at + n ensures mem[a] == BREAKPOINT {
      assert mem[a] == mem[at..at + |j|][a - at] == j[a - at];
    }
  }

  lemma FirstFive(mem: seq<byte>, at: nat, j: seq<byte>)
    requires HasAt(mem, at, j) && |j| >= 5
    ensures at + 5 <= |mem| && mem[at..at + 5] == j[..5]
  {
    assert mem[at..at + |j|][..5] == mem[at..at + 5];
  }

  lemma JumpStarts(target: nat, slot: nat, n: nat)
    requires n >= SIZE_OF_JMP && target < SIZE_64 && slot + RB_CODE_IN < SIZE_64
    ensures Jump(target, slot, n)[..5] == JmpImmediate(target, slot + RB_CODE_IN)
  {
    hide JmpImmediate;
    assert Wrap(target) == target && Wrap(slot + RB_CODE_IN) == slot + RB_CODE_IN;
  }
}
