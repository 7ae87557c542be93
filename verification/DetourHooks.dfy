/** From the calls to the hooks: what a whole transaction of attaches and detaches leaves behind. */
module DetourHooks {
  import opened Basics
  import opened DetourWindow
  import opened DetourTransaction
  import opened DetourRestore

  // ---------------------------------------------------------------- what a call is for

  /** The pointer leads to the trampoline, which has the detour, the bytes moved and the way back; the code
      at the target jumps to it. */
  predicate Hooked(x: AttachInput, base: seq<byte>, w: World) {
    && x.pointer in w.pointers && w.pointers[x.pointer] == x.slot && x.slot in w.tramps
    && x.target + x.moved <= |base|
    && w.tramps[x.slot] == Trampoline(base[x.target..x.target + x.moved], x.target + x.moved, x.realDetour)
    && x.target + 5 <= |w.mem| && x.target + 5 < SIZE_64 && x.slot + TRAMPOLINE < SIZE_64
    && JmpDest(x.target, w.mem[x.target..x.target + 5]) == x.slot + RB_CODE_IN
    && x.target + x.moved <= |w.mem| && forall a :: x.target + 5 <= a < x.target + x.moved ==> w.mem[a] == BREAKPOINT
  }

  /** The trampoline t is free again, the pointer at its target, and the code there as before. */
  predicate Unhooked(x: DetachInput, t: Trampoline, w: World) {
    && x.slot !in w.tramps && x.pointer in w.pointers && w.pointers[x.pointer] == t.Target()
    && HasAt(w.mem, t.Target(), t.restore)
  }

  predicate TookEffect(w: World, c: Call, base: seq<byte>, final: World) {
    match c
    case CallAttach(caller, x, _) => AttachGoes(w, caller, x) ==> Hooked(x, base, final)
    case CallDetach(caller, x, _) => DetachGoes(w, caller, x) ==> Unhooked(x, w.tramps[x.slot], final)
    case CallUpdate(_, _, _, _) => true
  }

  /** So did every call from w on that had nothing in its way. */
  predicate AllTookEffect(w: World, calls: seq<Call>, base: seq<byte>, final: World)
    requires AllFair(w, calls)
    decreases |calls|
  {
    calls == [] || (TookEffect(w, calls[0], base, final) && AllTookEffect(Step(w, calls[0]), calls[1..], base, final))
  }

  predicate AllClean(w: World, calls: seq<Call>)
    requires AllFair(w, calls)
    decreases |calls|
  {
    calls == [] || (Clean(w, calls[0]) && AllClean(Step(w, calls[0]), calls[1..]))
  }

  // ---------------------------------------------------------------- operations stay listed

  /** What was listed and taken stays, and the transaction stays the caller's. */
  predicate Continues(w: World, w': World) {
    && w'.mem == w.mem && w'.pointers == w.pointers && w'.owner == w.owner
    && |w.ops| <= |w'.ops| && w'.ops[|w'.ops| - |w.ops|..] == w.ops
    && forall s :: s in w.tramps ==> s in w'.tramps && w'.tramps[s] == w.tramps[s]
  }

  lemma StepContinues(w: World, c: Call)
    requires Fair(w, c)
    ensures Continues(w, Step(w, c))
  {
    var w' := Step(w, c);
    WhatStepsDo(w, c);
    hide Step;
    assert w.ops[|w.ops| - |w.ops|..] == w.ops;
    if |w'.ops| > |w.ops| { assert w'.ops[1..] == w.ops; }
  }

  lemma {:induction false} StepsContinue(w: World, calls: seq<Call>)
    requires AllFair(w, calls)
    ensures Continues(w, Steps(w, calls))
    decreases |calls|
  {
    hide Step, Fair;
    if calls == [] {
      assert w.ops[|w.ops| - |w.ops|..] == w.ops;
    } else {
      StepContinues(w, calls[0]);
      StepsContinue(Step(w, calls[0]), calls[1..]);
      Later(w, Step(w, calls[0]), Steps(w, calls));
    }
  }

  lemma Later(a: World, b: World, c: World)
    requires Continues(a, b) && Continues(b, c)
    ensures Continues(a, c)
  {
    assert c.ops[|c.ops| - |a.ops|..] == c.ops[|c.ops| - |b.ops|..][|b.ops| - |a.ops|..];
  }

  lemma FirstOpStays(w: World, w': World)
    requires Continues(w, w') && w.ops != []
    ensures |w'.ops| >= |w.ops| && w'.ops[|w'.ops| - |w.ops|] == w.ops[0]
  {
    assert w'.ops[|w'.ops| - |w.ops|..][0] == w.ops[0];
  }

  // ---------------------------------------------------------------- committed

  lemma AttachCommitted(w: World, base: seq<byte>, code: map<nat, nat>, k: nat, x: AttachInput)
    requires Overlay(w, base, code) && k < |w.ops| && w.ops[k] == Op(false, x.pointer, x.target, x.slot)
    requires x.target + x.moved <= |w.mem| && x.slot in w.tramps
        && w.tramps[x.slot].remain == x.target + x.moved && |w.tramps[x.slot].restore| == x.moved
        && w.tramps[x.slot].detour == x.realDetour
    ensures Hooked(x, base, Committed(w))
  {
    hide Sane, Apart, Outside, Near, CodeOk, PointersOk, OpsOk, Committed, Retargeted, Patched, Repointed, Slots,
        JmpDest;
    CommitKeepsOverlay(w, base, code);
    TouchedPointer(w, code, k);
    SavedBase(w, base, x.slot);
    CommittedIs(w);
    LiveHookJumps(Committed(w), base, Retargeted(code, w.ops), x.slot);
  }

  lemma SavedBase(w: World, base: seq<byte>, s: nat)
    requires CodeOk(w, base) && s in w.tramps && w.tramps[s].Target() >= 0
    ensures |w.mem| == |base| && w.tramps[s].remain <= |base|
    ensures w.tramps[s].restore == base[w.tramps[s].Target()..w.tramps[s].remain]
  {
    assert HasAt(base, w.tramps[s].Target(), w.tramps[s].restore);
  }

  lemma RemoveCommitted(w: World, base: seq<byte>, code: map<nat, nat>, k: nat, x: DetachInput, t: Trampoline)
    requires Overlay(w, base, code) && x.slot in w.tramps && w.tramps[x.slot] == t && t.Target() >= 0
    requires k < |w.ops| && w.ops[k] == Op(true, x.pointer, t.Target(), x.slot)
    ensures Unhooked(x, t, Committed(w))
  {
    hide Sane, Apart, Outside, Near, CodeOk, PointersOk, OpsOk, Committed, Retargeted, Patched, Repointed, Slots, HasAt;
    TouchedPointer(w, code, k);
    CommittedIs(w);
    OpInSlots(w.ops, k);
    SavedBase(w, base, x.slot);
    SlotIsSane(w, x.slot);
    forall a | t.Target() <= a < t.remain ensures base[a] == Committed(w).mem[a] {
      OnlyOneCovers(w, x.slot, a);
      BaseIsThere(w, base, a);
    }
    SamePart(base, Committed(w).mem, t.Target(), t.remain);
  }

  lemma SlotIsSane(w: World, s: nat)
    requires Sane(w) && s in w.tramps
    ensures s != 0 && SaneTrampoline(w.tramps[s], |w.mem|)
  {}

  lemma OnlyOneCovers(w: World, s: nat, a: nat)
    requires Apart(w.tramps) && s in w.tramps && w.tramps[s].Target() <= a < w.tramps[s].remain
    ensures forall o :: o in w.tramps && o != s ==> !Covers(w.tramps[o], a)
  {}

  // ---------------------------------------------------------------- every call takes effect

  lemma FirstTookEffect(w: World, c: Call, end: World, base: seq<byte>, code: map<nat, nat>)
    requires Overlay(w, base, code) && Fair(w, c) && Continues(Step(w, c), end) && Overlay(end, base, code)
    ensures TookEffect(w, c, base, Committed(end))
  {
    hide Overlay, Continues, Hooked, Unhooked, Committed, AttachGoes, DetachGoes, Attach, Detach;
    match c
    case CallAttach(caller, x, ignore) => if AttachGoes(w, caller, x) { AttachTookEffect(w, c, end, base, code); }
    case CallDetach(caller, x, ignore) => if DetachGoes(w, caller, x) { DetachTookEffect(w, c, end, base, code); }
    case CallUpdate(_, _, _, _) =>
  }

  lemma AttachTookEffect(w: World, c: Call, end: World, base: seq<byte>, code: map<nat, nat>)
    requires c.CallAttach? && AttachGoes(w, c.caller, c.attach) && Fair(w, c)
    requires Continues(Step(w, c), end) && Overlay(end, base, code)
    ensures Hooked(c.attach, base, Committed(end))
  {
    AttachAdds(w, c.caller, c.attach, c.ignore);
    hide Overlay, Hooked, Committed, AttachGoes, Attach;
    FirstOpStays(Step(w, c), end);
    var k := |end.ops| - |Step(w, c).ops|;
    AttachCommitted(end, base, code, k, c.attach);
  }

  lemma DetachTookEffect(w: World, c: Call, end: World, base: seq<byte>, code: map<nat, nat>)
    requires c.CallDetach? && DetachGoes(w, c.caller, c.detach)
    requires Continues(Step(w, c), end) && Overlay(end, base, code)
    ensures c.detach.slot in w.tramps && Unhooked(c.detach, w.tramps[c.detach.slot], Committed(end))
  {
    DetachAdds(w, c.caller, c.detach, c.ignore);
    var t := w.tramps[c.detach.slot];
    assert t.Target() >= 0;
    hide Overlay, Unhooked, Committed, Detach;
    FirstOpStays(Step(w, c), end);
    var k := |end.ops| - |Step(w, c).ops|;
    RemoveCommitted(end, base, code, k, c.detach, t);
  }

  lemma {:induction false} StepsKeepOverlay(w: World, calls: seq<Call>, base: seq<byte>, code: map<nat, nat>)
    requires Overlay(w, base, code) && AllFair(w, calls) && AllClean(w, calls)
    ensures Overlay(Steps(w, calls), base, code)
    decreases |calls|
  {
    hide Overlay, Step, Fair, Clean;
    if calls != [] {
      CallKeepsOverlay(w, calls[0], base, code);
      StepsKeepOverlay(Step(w, calls[0]), calls[1..], base, code);
    }
  }

  lemma {:induction false} AllTake(w: World, calls: seq<Call>, base: seq<byte>, code: map<nat, nat>)
    requires Overlay(w, base, code) && AllFair(w, calls) && AllClean(w, calls)
    ensures AllTookEffect(w, calls, base, Committed(Steps(w, calls)))
    decreases |calls|
  {
    hide Overlay, Step, Fair, Clean, TookEffect, Committed, Continues;
    if calls != [] {
      var w', rest := Step(w, calls[0]), calls[1..];
      CallKeepsOverlay(w, calls[0], base, code);
      AllTake(w', rest, base, code);
      StepsContinue(w', rest);
      StepsKeepOverlay(w', rest, base, code);
      FirstTookEffect(w, calls[0], Steps(w', rest), base, code);
    }
  }

  lemma CommitIs(w: World)
    requires w.error == NO_ERROR
    ensures Commit(w, w.owner) == Result(Committed(w), NO_ERROR)
  {
    assert w.(error := NO_ERROR) == w;
  }

  /** A transaction of calls that do not conflict, in which no error came up: its commit returns NO_ERROR,
      every hook it attached is in place, and every one it detached is out. */
  lemma EveryCallTakesEffect(w: World, caller: nat, protect: int, calls: seq<Call>, base: seq<byte>,
      code: map<nat, nat>)
    requires Overlay(w, base, code) && w.owner == 0 && w.ops == []
    requires var b := Begin(w, caller, protect).world;
      AllFair(b, calls) && AllClean(b, calls) && Steps(b, calls).error == NO_ERROR
    ensures var b := Begin(w, caller, protect).world;
      && Commit(Steps(b, calls), caller).code == NO_ERROR
      && AllTookEffect(b, calls, base, Commit(Steps(b, calls), caller).world)
  {
    hide Overlay, Step, Fair, Clean, TookEffect, AllTookEffect, Committed, Commit, Steps, Continues, AllClean, AllFair;
    var b := Begin(w, caller, protect).world;
    Unaffected(w, b, base, code);
    AllTake(b, calls, base, code);
    StepsContinue(b, calls);
    SameOwner(b, Steps(b, calls));
    CommitIs(Steps(b, calls));
  }

  lemma SameOwner(w: World, w': World)
    requires Continues(w, w')
    ensures w'.owner == w.owner
  {}

  // ---------------------------------------------------------------- all hooks out

  /** The call detaches a hook: its pointer leads to a trampoline in use, the detour is the one attached
      with it, and neither memory nor the system fails. */
  predicate DetachesHook(w: World, caller: nat, c: Call) {
    && c.CallDetach? && c.caller == caller
    && var x := c.detach;
       && x.detour != 0 && x.pointer != 0 && x.pointer in w.pointers && w.pointers[x.pointer] == x.slot
       && x.slot in w.tramps && w.tramps[x.slot].detour == x.realDetour && x.memory && x.protect == NO_ERROR
  }

  predicate AllDetachHooks(w: World, caller: nat, calls: seq<Call>) {
    && (forall k :: 0 <= k < |calls| ==> DetachesHook(w, caller, calls[k]))
    && (forall j, k :: 0 <= j < k < |calls| ==> calls[j].detach.pointer != calls[k].detach.pointer)
  }

  predicate NoneListed(w: World, calls: seq<Call>) {
    forall k :: 0 <= k < |calls| && calls[k].CallDetach? ==>
      FreshIn(w.ops, calls[k].detach.slot, calls[k].detach.pointer)
  }

  /** The trampolines that the calls name. */
  function Named(calls: seq<Call>): set<nat>
    decreases |calls|
  {
    if calls == [] then {} else (if calls[0].CallDetach? then {calls[0].detach.slot} else {}) + Named(calls[1..])
  }

  lemma HookGoes(w: World, caller: nat, c: Call)
    requires Sane(w) && DetachesHook(w, caller, c) && w.owner == caller && w.error == NO_ERROR
    ensures DetachGoes(w, caller, c.detach)
  {
    SlotIsSane(w, c.detach.slot);
  }

  lemma HookListed(w: World, caller: nat, c: Call)
    requires Sane(w) && DetachesHook(w, caller, c) && w.owner == caller && w.error == NO_ERROR
    requires NoneListed(w, [c]) && Slots(w.ops, false) == {}
    ensures Fair(w, c) && Clean(w, c)
    ensures var w' := Step(w, c);
      && w' == w.(ops := w'.ops) && Slots(w'.ops, true) == Slots(w.ops, true) + {c.detach.slot}
      && Slots(w'.ops, false) == {} && |w'.ops| == |w.ops| + 1 && w'.ops[1..] == w.ops
      && w'.ops[0].slot == c.detach.slot && w'.ops[0].pointer == c.detach.pointer
  {
    HookGoes(w, caller, c);
    DetachAdds(w, caller, c.detach, c.ignore);
    hide Detach, DetachGoes, Slots, Sane;
    var o := Op(true, c.detach.pointer, w.tramps[c.detach.slot].Target(), c.detach.slot);
    SlotsCons(o, w.ops, true);
    SlotsCons(o, w.ops, false);
    assert [c][0] == c;
  }

  lemma OthersUnlisted(w: World, w': World, caller: nat, calls: seq<Call>, code: map<nat, nat>)
    requires calls != [] && PointersOk(w, code) && AllDetachHooks(w, caller, calls) && NoneListed(w, calls)
    requires w' == w.(ops := w'.ops) && |w'.ops| == |w.ops| + 1 && w'.ops[1..] == w.ops
    requires w'.ops[0].slot == calls[0].detach.slot && w'.ops[0].pointer == calls[0].detach.pointer
    ensures AllDetachHooks(w', caller, calls[1..]) && NoneListed(w', calls[1..])
  {
    hide Live;
    forall k | 0 <= k < |calls[1..]|
      ensures DetachesHook(w', caller, calls[1..][k])
          && FreshIn(w'.ops, calls[1..][k].detach.slot, calls[1..][k].detach.pointer)
    {
      var c := calls[k + 1];
      assert DetachesHook(w, caller, c) && DetachesHook(w, caller, calls[0]);
      assert FreshIn(w.ops, c.detach.slot, c.detach.pointer);
      assert w.pointers[c.detach.pointer] != w.pointers[calls[0].detach.pointer];
      forall j | 0 <= j < |w'.ops| ensures w'.ops[j].slot != c.detach.slot && w'.ops[j].pointer != c.detach.pointer {
        if j > 0 { assert w'.ops[j] == w'.ops[1..][j - 1]; }
      }
    }
  }

  lemma {:induction false} AllListed(w: World, caller: nat, calls: seq<Call>, base: seq<byte>, code: map<nat, nat>)
    requires Overlay(w, base, code) && w.owner == caller && w.error == NO_ERROR && Slots(w.ops, false) == {}
    requires AllDetachHooks(w, caller, calls) && NoneListed(w, calls)
    ensures AllFair(w, calls) && AllClean(w, calls)
    ensures var end := Steps(w, calls);
      && end == w.(ops := end.ops) && Slots(end.ops, false) == {}
      && Slots(end.ops, true) == Slots(w.ops, true) + Named(calls)
    decreases |calls|
  {
    hide Step, Fair, Clean, DetachesHook, Slots, Sane, Apart, Outside, Near, CodeOk, PointersOk, OpsOk, FreshIn;
    if calls != [] {
      var c := calls[0];
      assert DetachesHook(w, caller, c);
      FirstUnlisted(w, calls);
      HookIsDetach(w, caller, c);
      HookListed(w, caller, c);
      var w' := Step(w, c);
      OthersUnlisted(w, w', caller, calls, code);
      CallKeepsOverlay(w, c, base, code);
      AllListed(w', caller, calls[1..], base, code);
    }
  }

  lemma HookIsDetach(w: World, caller: nat, c: Call)
    requires DetachesHook(w, caller, c)
    ensures c.CallDetach?
  {}

  lemma FirstUnlisted(w: World, calls: seq<Call>)
    requires calls != [] && NoneListed(w, calls)
    ensures NoneListed(w, [calls[0]])
  {
    hide FreshIn;
  }

  lemma {:induction false} RemovalsKeepCode(code: map<nat, nat>, ops: seq<Op>)
    requires forall k :: 0 <= k < |ops| ==> ops[k].isRemove
    ensures Retargeted(code, ops) == code
    decreases |ops|
  {
    if ops != [] { RemovalsKeepCode(code, ops[1..]); }
  }

  lemma OnlyRemovals(ops: seq<Op>)
    requires Slots(ops, false) == {}
    ensures forall k :: 0 <= k < |ops| ==> ops[k].isRemove
  {
    forall k | 0 <= k < |ops| ensures ops[k].isRemove { OpInSlots(ops, k); }
  }

  /** Any number of hooks: a transaction that detaches each of them with its own detour, and meets no
      error of the system, commits with NO_ERROR and gives back code, pointers and trampolines. */
  lemma DetachingAllGivesBack(w: World, caller: nat, calls: seq<Call>, base: seq<byte>, code: map<nat, nat>)
    requires Overlay(w, base, code) && w.owner == 0 && w.ops == []
    requires AllDetachHooks(w, caller, calls) && forall s :: s in w.tramps ==> s in Named(calls)
    ensures var b := Begin(w, caller, NO_ERROR).world;
      && AllFair(b, calls)
      && var r := Commit(Steps(b, calls), caller);
         r.code == NO_ERROR && r.world.mem == base && r.world.pointers == code && r.world.tramps == map[]
  {
    var b := Begin(w, caller, NO_ERROR).world;
    NothingListedYet(w, b, caller, calls);
    Unaffected(w, b, base, code);
    hide Overlay, AllDetachHooks, NoneListed, Slots, Step, Fair, Clean, AllClean, AllFair, Steps, Committed, Commit,
        Retargeted, Named;
    AllListed(b, caller, calls, base, code);
    var end := Steps(b, calls);
    StepsKeepOverlay(b, calls, base, code);
    AllDetached(end, base, code);
    OnlyRemovals(end.ops);
    RemovalsKeepCode(code, end.ops);
    CommitIs(end);
  }

  lemma NothingListedYet(w: World, b: World, caller: nat, calls: seq<Call>)
    requires AllDetachHooks(w, caller, calls) && b == Begin(w, caller, NO_ERROR).world && w.owner == 0
    ensures AllDetachHooks(b, caller, calls) && NoneListed(b, calls) && Slots(b.ops, false) == {} && b.ops == []
  {
    forall k | 0 <= k < |calls| ensures DetachesHook(b, caller, calls[k]) {
      assert DetachesHook(w, caller, calls[k]);
    }
  }
}
