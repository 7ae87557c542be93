/** The id server of app/sequence/Classes/DefaultSequenceWorker.cpp: any number of threads draw ranges
    of ids from blocks that the database hands out.  A step below is one access to the shared fields
    or to the lock; threads interleave between any two steps. */
module Sequence {

  /** The ids base+1 .. max. */
  datatype Block = Block(base: int, max: int)

  /** A range returned by addAndIncrement, and how many blocks had been drawn by then. */
  datatype Grant = Grant(block: nat, min: int, max: int)

  datatype Mode = Shared | Exclusive

  /** Where a thread is in getAndIncrement(step). */
  datatype Thread =
    | Outside
    | Called(step: int)                            // wants the read lock
    | Testing(mode: Mode, step: int)               // in addAndIncrement, before value >= max
    | Adding(mode: Mode, step: int)                // before __sync_add_and_fetch
    | Comparing(mode: Mode, step: int, cur: int)   // has fetched currentValue
    | Missed(step: int)                            // got -1, wants the write lock
    | Checking(step: int)                          // has the write lock, before value >= max
    | Filling(step: int)                           // in nextRange
    | Failed                                       // the retry returned -1

  datatype Worker = Worker(value: int, max: int, threads: seq<Thread>, blocks: seq<Block>, grants: seq<Grant>)

  datatype Action =
    | Call(step: int) | LockShared | Test | Add | Compare | LockExclusive | Check
    | Refill(base: int, size: int)                 // nextRange returns a block
    | Throw                                        // nextRange throws

  predicate Writes(p: Thread) {
    p.Checking? || p.Filling? || ((p.Testing? || p.Adding? || p.Comparing?) && p.mode.Exclusive?)
  }

  predicate Locked(p: Thread) { Writes(p) || p.Testing? || p.Adding? || p.Comparing? }

  predicate Disjoint(lo: int, hi: int, lo': int, hi': int) { hi < lo' || hi' < lo }

  predicate Apart(a: Block, b: Block) { Disjoint(a.base + 1, a.max, b.base + 1, b.max) }

  /** The database grants a non-empty block that no earlier block overlaps. */
  predicate FreshBlock(blocks: seq<Block>, b: Block) {
    b.base < b.max && forall k :: 0 <= k < |blocks| ==> Apart(blocks[k], b)
  }

  predicate Enabled(w: Worker, t: nat, a: Action) {
    t < |w.threads| &&
    match a
    case Call(step) => w.threads[t].Outside? && step > 0
    case LockShared => w.threads[t].Called? && forall u :: 0 <= u < |w.threads| ==> !Writes(w.threads[u])
    case Test => w.threads[t].Testing?
    case Add => w.threads[t].Adding?
    case Compare => w.threads[t].Comparing?
    case LockExclusive => w.threads[t].Missed? && forall u :: 0 <= u < |w.threads| ==> !Locked(w.threads[u])
    case Check => w.threads[t].Checking?
    case Refill(base, size) => w.threads[t].Filling? && FreshBlock(w.blocks, Block(base, base + size))
    case Throw => w.threads[t].Filling?
  }

  function Goes(w: Worker, t: nat, p: Thread): Worker
    requires t < |w.threads|
  {
    w.(threads := w.threads[t := p])
  }

  /** addAndIncrement returns -1. */
  function Miss(mode: Mode, step: int): Thread { if mode.Shared? then Missed(step) else Failed }

  function Do(w: Worker, t: nat, a: Action): Worker
    requires Enabled(w, t, a)
  {
    var p := w.threads[t];
    match a
    case Call(step) => Goes(w, t, Called(step))
    case LockShared => Goes(w, t, Testing(Shared, p.step))
    case Test => Goes(w, t, if w.value >= w.max then Miss(p.mode, p.step) else Adding(p.mode, p.step))
    case Add => Goes(w, t, Comparing(p.mode, p.step, w.value + p.step)).(value := w.value + p.step)
    case Compare =>
      if p.cur > w.max && p.cur - p.step >= w.max then Goes(w, t, Miss(p.mode, p.step))
      else
        var g := Grant(|w.blocks|, p.cur - p.step + 1, if p.cur > w.max then w.max else p.cur);
        Goes(w, t, Outside).(grants := w.grants + [g])
    case LockExclusive => Goes(w, t, Checking(p.step))
    case Check => Goes(w, t, if w.value >= w.max then Filling(p.step) else Testing(Exclusive, p.step))
    case Refill(base, size) =>
      Goes(w, t, Testing(Exclusive, p.step))
        .(value := base, max := base + size, blocks := w.blocks + [Block(base, base + size)])
    case Throw => Goes(w, t, Outside)
  }

  /** The constructor has drawn the first block; nobody has called yet. */
  predicate Initial(w: Worker) {
    && |w.blocks| == 1 && w.blocks[0].base < w.blocks[0].max
    && w.value == w.blocks[0].base && w.max == w.blocks[0].max && w.grants == []
    && forall t :: 0 <= t < |w.threads| ==> w.threads[t].Outside?
  }

  // ---------------------------------------------------------------- the invariant

  predicate BlocksApart(w: Worker) {
    && |w.blocks| > 0 && w.max == w.blocks[|w.blocks| - 1].max
    && (forall k :: 0 <= k < |w.blocks| ==> w.blocks[k].base < w.blocks[k].max)
    && (forall j, k :: 0 <= j < k < |w.blocks| ==> Apart(w.blocks[j], w.blocks[k]))
  }

  /** One writer, and then nobody else. */
  predicate Excludes(w: Worker) {
    forall t, u :: 0 <= t < |w.threads| && 0 <= u < |w.threads| && t != u && Writes(w.threads[t]) ==>
        !Locked(w.threads[u])
  }

  predicate ThreadOk(w: Worker, p: Thread) {
    && (p.Called? || p.Testing? || p.Adding? || p.Comparing? || p.Missed? || p.Checking? || p.Filling? ==> p.step > 0)
    && (p.Comparing? && |w.blocks| > 0 ==> w.blocks[|w.blocks| - 1].base <= p.cur - p.step && p.cur <= w.value)
    && (p.Testing? && p.mode.Exclusive? ==> w.value < w.max)
    && (p.Adding? && p.mode.Exclusive? ==> w.value < w.max)
    && (p.Comparing? && p.mode.Exclusive? ==> p.cur - p.step < w.max)
    && (p.Filling? ==> w.value >= w.max)
    && !p.Failed?
  }

  predicate ThreadsOk(w: Worker) {
    && (forall t :: 0 <= t < |w.threads| ==> ThreadOk(w, w.threads[t]))
    && |w.blocks| > 0 && w.blocks[|w.blocks| - 1].base <= w.value
  }

  /** What one thread has added and not yet returned is its own. */
  predicate ClaimsApart(w: Worker) {
    forall t, u :: 0 <= t < |w.threads| && 0 <= u < |w.threads| && t != u ==>
      var p, q := w.threads[t], w.threads[u];
      p.Comparing? && q.Comparing? ==> Disjoint(p.cur - p.step + 1, p.cur, q.cur - q.step + 1, q.cur)
  }

  predicate GrantOk(w: Worker, g: Grant) {
    && g.min <= g.max && 1 <= g.block <= |w.blocks|
    && w.blocks[g.block - 1].base < g.min && g.max <= w.blocks[g.block - 1].max
    && (g.block == |w.blocks| ==> g.max <= w.value)
  }

  predicate GrantsOk(w: Worker) {
    && (forall k :: 0 <= k < |w.grants| ==> GrantOk(w, w.grants[k]))
    && (forall j, k :: 0 <= j < k < |w.grants| ==>
          Disjoint(w.grants[j].min, w.grants[j].max, w.grants[k].min, w.grants[k].max))
  }

  predicate GrantsApartFromClaims(w: Worker) {
    forall t, k :: 0 <= t < |w.threads| && 0 <= k < |w.grants| ==>
      var p, g := w.threads[t], w.grants[k];
      p.Comparing? && g.block == |w.blocks| ==> Disjoint(p.cur - p.step + 1, p.cur, g.min, g.max)
  }

  predicate GrantedFrom(w: Worker, block: nat, x: int) {
    exists k :: 0 <= k < |w.grants| && w.grants[k].block == block && w.grants[k].min <= x <= w.grants[k].max
  }

  predicate Claimed(w: Worker, x: int) {
    exists t :: 0 <= t < |w.threads| && w.threads[t].Comparing?
        && w.threads[t].cur - w.threads[t].step < x <= w.threads[t].cur
  }

  /** Nothing is lost: the ids of an old block were all granted, and those of the current block up to
      value are granted or claimed. */
  ghost predicate NothingLost(w: Worker) {
    && |w.blocks| > 0
    && (forall b, x :: 1 <= b < |w.blocks| && w.blocks[b - 1].base < x <= w.blocks[b - 1].max ==> GrantedFrom(w, b, x))
    && (forall x :: w.blocks[|w.blocks| - 1].base < x <= w.value && x <= w.max ==>
        GrantedFrom(w, |w.blocks|, x) || Claimed(w, x))
  }

  ghost predicate Invariant(w: Worker) {
    BlocksApart(w) && Excludes(w) && ThreadsOk(w) && ClaimsApart(w) && GrantsOk(w) && GrantsApartFromClaims(w)
        && NothingLost(w)
  }

  // ---------------------------------------------------------------- one step

  lemma BlocksStayApart(w: Worker, t: nat, a: Action)
    requires BlocksApart(w) && Enabled(w, t, a)
    ensures BlocksApart(Do(w, t, a))
  {}

  lemma LockStaysExclusive(w: Worker, t: nat, a: Action)
    requires Excludes(w) && Enabled(w, t, a)
    ensures Excludes(Do(w, t, a))
  {}

  lemma ThreadsStayOk(w: Worker, t: nat, a: Action)
    requires BlocksApart(w) && Excludes(w) && ThreadsOk(w) && Enabled(w, t, a)
    ensures ThreadsOk(Do(w, t, a))
  {
    var w' := Do(w, t, a);
    forall u | 0 <= u < |w'.threads| ensures ThreadOk(w', w'.threads[u]) {
      assert ThreadOk(w, w.threads[u]) && ThreadOk(w, w.threads[t]);
    }
  }

  lemma ClaimsStayApart(w: Worker, t: nat, a: Action)
    requires ThreadsOk(w) && ClaimsApart(w) && Enabled(w, t, a)
    ensures ClaimsApart(Do(w, t, a))
  {
    assert forall u :: 0 <= u < |w.threads| ==> ThreadOk(w, w.threads[u]);
  }

  lemma GrantsStayOk(w: Worker, t: nat, a: Action)
    requires BlocksApart(w) && ThreadsOk(w) && GrantsOk(w) && GrantsApartFromClaims(w) && Enabled(w, t, a)
    ensures GrantsOk(Do(w, t, a))
  {
    var w' := Do(w, t, a);
    assert ThreadOk(w, w.threads[t]);
    forall k | 0 <= k < |w.grants| ensures GrantOk(w', w.grants[k]) && w'.grants[k] == w.grants[k] {
      assert GrantOk(w, w.grants[k]);
    }
    if |w'.grants| > |w.grants| {
      forall k | 0 <= k < |w.grants|
        ensures Disjoint(w.grants[k].min, w.grants[k].max, w'.grants[|w.grants|].min, w'.grants[|w.grants|].max) {
        assert GrantOk(w, w.grants[k]);
        if w.grants[k].block < |w.blocks| { assert Apart(w.blocks[w.grants[k].block - 1], w.blocks[|w.blocks| - 1]); }
      }
    }
  }

  lemma ClaimsStayApartFromGrants(w: Worker, t: nat, a: Action)
    requires ThreadsOk(w) && ClaimsApart(w) && GrantsOk(w) && GrantsApartFromClaims(w) && Enabled(w, t, a)
    requires Excludes(w)
    ensures GrantsApartFromClaims(Do(w, t, a))
  {
    var w' := Do(w, t, a);
    forall u, k | 0 <= u < |w'.threads| && 0 <= k < |w'.grants| && w'.threads[u].Comparing?
        && w'.grants[k].block == |w'.blocks|
      ensures Disjoint(w'.threads[u].cur - w'.threads[u].step + 1, w'.threads[u].cur, w'.grants[k].min,
          w'.grants[k].max)
    {
      assert ThreadOk(w, w.threads[u]) && ThreadOk(w, w.threads[t]);
      if k < |w.grants| { assert GrantOk(w, w.grants[k]); }
    }
  }

  lemma StillGranted(w: Worker, t: nat, a: Action, b: nat, x: int)
    requires Enabled(w, t, a) && GrantedFrom(w, b, x)
    ensures GrantedFrom(Do(w, t, a), b, x)
  {
    var k :| 0 <= k < |w.grants| && w.grants[k].block == b && w.grants[k].min <= x <= w.grants[k].max;
    assert Do(w, t, a).grants[k] == w.grants[k];
  }

  lemma StillClaimed(w: Worker, t: nat, a: Action, x: int)
    requires Enabled(w, t, a) && Claimed(w, x) && ThreadsOk(w) && x <= w.max && !a.Refill?
    ensures Claimed(Do(w, t, a), x) || GrantedFrom(Do(w, t, a), |w.blocks|, x)
  {
    var u :| 0 <= u < |w.threads| && w.threads[u].Comparing?
        && w.threads[u].cur - w.threads[u].step < x <= w.threads[u].cur;
    var w' := Do(w, t, a);
    if u != t { assert w'.threads[u] == w.threads[u]; }
    else { assert w'.grants[|w.grants|].block == |w.blocks|
        && w'.grants[|w.grants|].min <= x <= w'.grants[|w.grants|].max; }
  }

  lemma NothingGetsLost(w: Worker, t: nat, a: Action)
    requires Invariant(w) && Enabled(w, t, a)
    ensures NothingLost(Do(w, t, a))
  {
    var w' := Do(w, t, a);
    assert ThreadOk(w, w.threads[t]);
    forall b, x | 1 <= b < |w'.blocks| && w'.blocks[b - 1].base < x <= w'.blocks[b - 1].max
      ensures GrantedFrom(w', b, x) {
      assert w'.blocks[b - 1] == w.blocks[b - 1];
      assert GrantedFrom(w, b, x) by { if b == |w.blocks| { assert w.threads[t].Filling? && !Claimed(w, x); } }
      StillGranted(w, t, a, b, x);
    }
    if !a.Refill? {
      forall x | w'.blocks[|w'.blocks| - 1].base < x <= w'.value && x <= w'.max
        ensures GrantedFrom(w', |w'.blocks|, x) || Claimed(w', x) {
        if x <= w.value {
          if GrantedFrom(w, |w.blocks|, x) { StillGranted(w, t, a, |w.blocks|, x); } else { StillClaimed(w, t, a, x); }
        } else {
          assert w'.threads[t].cur - w'.threads[t].step < x <= w'.threads[t].cur;
        }
      }
    }
  }

  lemma StepKeepsInvariant(w: Worker, t: nat, a: Action)
    requires Invariant(w) && Enabled(w, t, a)
    ensures Invariant(Do(w, t, a))
  {
    hide BlocksApart, Excludes, ThreadsOk, ClaimsApart, GrantsOk, GrantsApartFromClaims, Do, Enabled;
    BlocksStayApart(w, t, a);
    LockStaysExclusive(w, t, a);
    ThreadsStayOk(w, t, a);
    ClaimsStayApart(w, t, a);
    GrantsStayOk(w, t, a);
    ClaimsStayApartFromGrants(w, t, a);
    NothingGetsLost(w, t, a);
  }

  // ---------------------------------------------------------------- whole runs

  datatype Move = Move(thread: nat, action: Action)

  predicate Possible(w: Worker, run: seq<Move>)
    decreases |run|
  {
    run == [] || (Enabled(w, run[0].thread, run[0].action) && Possible(Do(w, run[0].thread, run[0].action), run[1..]))
  }

  function After(w: Worker, run: seq<Move>): Worker
    requires Possible(w, run)
    decreases |run|
  {
    if run == [] then w else After(Do(w, run[0].thread, run[0].action), run[1..])
  }

  lemma {:induction false} RunKeepsInvariant(w: Worker, run: seq<Move>)
    requires Invariant(w) && Possible(w, run)
    ensures Invariant(After(w, run))
    decreases |run|
  {
    hide Do, Enabled, Invariant;
    if run != [] {
      StepKeepsInvariant(w, run[0].thread, run[0].action);
      RunKeepsInvariant(Do(w, run[0].thread, run[0].action), run[1..]);
    }
  }

  lemma EveryRun(w: Worker, run: seq<Move>)
    requires Initial(w) && Possible(w, run)
    ensures Invariant(After(w, run))
  {
    RunKeepsInvariant(w, run);
  }

  /** Under every interleaving: ranges are non-empty, inside a block of the database and pairwise disjoint. */
  lemma GrantsAreDisjoint(w: Worker, run: seq<Move>)
    requires Initial(w) && Possible(w, run)
    ensures var w' := After(w, run);
      && (forall k :: 0 <= k < |w'.grants| ==> var g := w'.grants[k];
            && g.min <= g.max && 1 <= g.block <= |w'.blocks|
            && w'.blocks[g.block - 1].base < g.min && g.max <= w'.blocks[g.block - 1].max)
      && (forall j, k :: 0 <= j < k < |w'.grants| ==>
            Disjoint(w'.grants[j].min, w'.grants[j].max, w'.grants[k].min, w'.grants[k].max))
  {
    EveryRun(w, run);
    var w' := After(w, run);
    assert forall k :: 0 <= k < |w'.grants| ==> GrantOk(w', w'.grants[k]);
  }

  // ---------------------------------------------------------------- which call a range answers

  /** The step of the last call that thread t made in the run, 0 if it made none. */
  function Asked(run: seq<Move>, t: nat): int
    decreases |run|
  {
    if run == [] then 0
    else
      var last := run[|run| - 1];
      if last.thread == t && last.action.Call? then last.action.step else Asked(run[..|run| - 1], t)
  }

  predicate HasStep(p: Thread) { !p.Outside? && !p.Failed? }

  /** Every thread is busy with the step it was called with. */
  predicate StepsAsked(w: Worker, run: seq<Move>) {
    forall t :: 0 <= t < |w.threads| && HasStep(w.threads[t]) ==> w.threads[t].step == Asked(run, t)
  }

  lemma {:induction false} AfterSnoc(w: Worker, run: seq<Move>, m: Move)
    requires Possible(w, run) && Enabled(After(w, run), m.thread, m.action)
    ensures Possible(w, run + [m]) && After(w, run + [m]) == Do(After(w, run), m.thread, m.action)
    decreases |run|
  {
    hide Do, Enabled;
    if run == [] {
      assert run + [m] == [m] && [m][1..] == [];
    } else {
      assert (run + [m])[1..] == run[1..] + [m];
      AfterSnoc(Do(w, run[0].thread, run[0].action), run[1..], m);
    }
  }

  lemma {:induction false} PossibleFront(w: Worker, run: seq<Move>, n: nat)
    requires Possible(w, run) && n < |run|
    ensures Possible(w, run[..n]) && Enabled(After(w, run[..n]), run[n].thread, run[n].action)
    ensures Possible(w, run[..n + 1])
    ensures After(w, run[..n + 1]) == Do(After(w, run[..n]), run[n].thread, run[n].action)
    decreases n
  {
    hide Do, Enabled;
    if n > 0 {
      assert run[..n][1..] == run[1..][..n - 1] && run[..n + 1][1..] == run[1..][..n];
      PossibleFront(Do(w, run[0].thread, run[0].action), run[1..], n - 1);
    } else {
      assert run[..1][1..] == [];
    }
  }

  lemma StepStaysAsked(w: Worker, run: seq<Move>, m: Move)
    requires StepsAsked(w, run) && Enabled(w, m.thread, m.action)
    ensures StepsAsked(Do(w, m.thread, m.action), run + [m])
  {
    assert (run + [m])[..|run|] == run;
  }

  lemma {:induction false} StepsStayAsked(w: Worker, run: seq<Move>, n: nat)
    requires Initial(w) && Possible(w, run) && n <= |run|
    ensures Possible(w, run[..n]) && StepsAsked(After(w, run[..n]), run[..n])
    decreases n
  {
    hide Do, Enabled;
    if n == 0 {
      assert run[..0] == [];
    } else {
      StepsStayAsked(w, run, n - 1);
      PossibleFront(w, run, n - 1);
      StepStaysAsked(After(w, run[..n - 1]), run[..n - 1], run[n - 1]);
      assert run[..n - 1] + [run[n - 1]] == run[..n];
    }
  }

  /** A move hands out at most one range, and never takes one back. */
  lemma OneGrantAtATime(w: Worker, t: nat, a: Action)
    requires Enabled(w, t, a)
    ensures var w' := Do(w, t, a);
      w'.grants == w.grants || (a.Compare? && |w'.grants| == |w.grants| + 1 && w'.grants[..|w.grants|] == w.grants)
  {}

  /** In every run, a range that is handed out holds exactly as many ids as its thread asked for in the
      call it answers, or it ends with the block and holds fewer. */
  lemma GrantAnswersItsCall(w: Worker, run: seq<Move>, n: nat)
    requires Initial(w) && Possible(w, run) && n < |run|
    ensures Possible(w, run[..n]) && Possible(w, run[..n + 1])
    ensures var before, after := After(w, run[..n]), After(w, run[..n + 1]);
      after.grants == before.grants || (
        && |after.grants| == |before.grants| + 1
        && var g, asked := after.grants[|before.grants|], Asked(run[..n], run[n].thread);
           && asked > 0 && g.block == |before.blocks|
           && (g.max - g.min + 1 == asked || (g.max == before.max && g.max - g.min + 1 < asked)))
  {
    PossibleFront(w, run, n);
    StepsStayAsked(w, run, n);
    var before := After(w, run[..n]);
    OneGrantAtATime(before, run[n].thread, run[n].action);
    EveryRun(w, run[..n]);
    assert ThreadOk(before, before.threads[run[n].thread]);
  }

  /** The moves of a call that is not disturbed, with ids left and with none left. */
  function Alone(t: nat, step: int): seq<Move> {
    [Move(t, Call(step)), Move(t, LockShared), Move(t, Test), Move(t, Add), Move(t, Compare)]
  }

  function AloneRefilled(t: nat, step: int, base: int, size: int): seq<Move> {
    [Move(t, Call(step)), Move(t, LockShared), Move(t, Test), Move(t, LockExclusive), Move(t, Check),
     Move(t, Refill(base, size)), Move(t, Test), Move(t, Add), Move(t, Compare)]
  }

  predicate AllOutside(w: Worker) { forall t :: 0 <= t < |w.threads| ==> w.threads[t].Outside? }

  function Least(a: int, b: int): int { if a < b then a else b }

  predicate Leads(w: Worker, run: seq<Move>, w': Worker) { Possible(w, run) && After(w, run) == w' }

  lemma LeadsOn(w: Worker, run: seq<Move>, w': Worker, t: nat, a: Action, next: Worker)
    requires Leads(w, run, w') && Enabled(w', t, a) && Do(w', t, a) == next
    ensures Leads(w, run + [Move(t, a)], next)
  {
    hide Do, Enabled, Possible, After;
    AfterSnoc(w, run, Move(t, a));
  }

  lemma AloneLocks(w: Worker, t: nat, step: int)
    requires AllOutside(w) && t < |w.threads| && step > 0
    ensures Enabled(w, t, Call(step)) && Do(w, t, Call(step)) == Goes(w, t, Called(step))
    ensures var x := Goes(w, t, Called(step));
      Enabled(x, t, LockShared) && Do(x, t, LockShared) == Goes(w, t, Testing(Shared, step))
  {
    assert w.threads[t := Called(step)][t := Testing(Shared, step)] == w.threads[t := Testing(Shared, step)];
  }

  lemma AloneMisses(w: Worker, t: nat, step: int)
    requires AllOutside(w) && t < |w.threads| && w.value >= w.max
    ensures var x := Goes(w, t, Testing(Shared, step));
      Enabled(x, t, Test) && Do(x, t, Test) == Goes(w, t, Missed(step))
    ensures var x := Goes(w, t, Missed(step));
      Enabled(x, t, LockExclusive) && Do(x, t, LockExclusive) == Goes(w, t, Checking(step))
    ensures var x := Goes(w, t, Checking(step));
      Enabled(x, t, Check) && Do(x, t, Check) == Goes(w, t, Filling(step))
  {
    assert w.threads[t := Testing(Shared, step)][t := Missed(step)] == w.threads[t := Missed(step)];
    assert w.threads[t := Missed(step)][t := Checking(step)] == w.threads[t := Checking(step)];
    assert w.threads[t := Checking(step)][t := Filling(step)] == w.threads[t := Filling(step)];
  }

  function Refilled(w: Worker, base: int, size: int): Worker {
    w.(value := base, max := base + size, blocks := w.blocks + [Block(base, base + size)])
  }

  lemma AloneFills(w: Worker, t: nat, step: int, base: int, size: int)
    requires AllOutside(w) && t < |w.threads| && FreshBlock(w.blocks, Block(base, base + size))
    ensures var x := Goes(w, t, Filling(step));
      && Enabled(x, t, Refill(base, size))
      && Do(x, t, Refill(base, size)) == Goes(Refilled(w, base, size), t, Testing(Exclusive, step))
  {
    assert w.threads[t := Filling(step)][t := Testing(Exclusive, step)] == w.threads[t := Testing(Exclusive, step)];
  }

  function Served(w: Worker, step: int): Worker {
    w.(value := w.value + step,
       grants := w.grants + [Grant(|w.blocks|, w.value + 1, Least(w.value + step, w.max))])
  }

  /** From the test on, while ids are left. */
  lemma AloneTakes(w: Worker, run: seq<Move>, x: Worker, t: nat, mode: Mode, step: int)
    requires AllOutside(x) && t < |x.threads| && x.value < x.max
    requires Leads(w, run, Goes(x, t, Testing(mode, step)))
    ensures Leads(w, run + [Move(t, Test)] + [Move(t, Add)] + [Move(t, Compare)], Served(x, step))
  {
    var testing, adding := Goes(x, t, Testing(mode, step)), Goes(x, t, Adding(mode, step));
    var comparing := Goes(x, t, Comparing(mode, step, x.value + step)).(value := x.value + step);
    assert x.threads[t := Testing(mode, step)][t := Adding(mode, step)] == x.threads[t := Adding(mode, step)];
    assert x.threads[t := Adding(mode, step)][t := Comparing(mode, step, x.value + step)]
      == x.threads[t := Comparing(mode, step, x.value + step)];
    assert x.threads[t := Comparing(mode, step, x.value + step)][t := Outside] == x.threads;
    LeadsOn(w, run, testing, t, Test, adding);
    LeadsOn(w, run + [Move(t, Test)], adding, t, Add, comparing);
    LeadsOn(w, run + [Move(t, Test)] + [Move(t, Add)], comparing, t, Compare, Served(x, step));
  }

  lemma AloneTests(w: Worker, t: nat, step: int)
    requires AllOutside(w) && t < |w.threads| && step > 0
    ensures Leads(w, [Move(t, Call(step)), Move(t, LockShared)], Goes(w, t, Testing(Shared, step)))
  {
    AloneLocks(w, t, step);
    hide Do, Enabled;
    LeadsOn(w, [], w, t, Call(step), Goes(w, t, Called(step)));
    LeadsOn(w, [] + [Move(t, Call(step))], Goes(w, t, Called(step)), t, LockShared, Goes(w, t, Testing(Shared, step)));
    assert [] + [Move(t, Call(step))] + [Move(t, LockShared)] == [Move(t, Call(step)), Move(t, LockShared)];
  }

  /** While ids are left, a call gets the next `step` of them, or all that are left. */
  lemma CallAlone(w: Worker, t: nat, step: int)
    requires AllOutside(w) && t < |w.threads| && step > 0 && w.value < w.max
    ensures Possible(w, Alone(t, step))
    ensures After(w, Alone(t, step)) == w.(value := w.value + step,
      grants := w.grants + [Grant(|w.blocks|, w.value + 1, Least(w.value + step, w.max))])
  {
    hide Do, Enabled, Possible, After, AllOutside;
    var start := [Move(t, Call(step)), Move(t, LockShared)];
    AloneTests(w, t, step);
    AloneTakes(w, start, w, t, Shared, step);
    assert Alone(t, step) == start + [Move(t, Test)] + [Move(t, Add)] + [Move(t, Compare)];
  }

  /** When none are left, a call draws a block and gets its first `step` ids, or the whole block. */
  lemma CallAloneRefills(w: Worker, t: nat, step: int, base: int, size: int)
    requires AllOutside(w) && t < |w.threads| && step > 0 && w.value >= w.max
    requires FreshBlock(w.blocks, Block(base, base + size))
    ensures Possible(w, AloneRefilled(t, step, base, size))
    ensures After(w, AloneRefilled(t, step, base, size)) == w.(value := base + step, max := base + size,
      blocks := w.blocks + [Block(base, base + size)],
      grants := w.grants + [Grant(|w.blocks| + 1, base + 1, Least(base + step, base + size))])
  {
    hide Do, Enabled, Possible, After, Goes;
    var run := [Move(t, Call(step)), Move(t, LockShared)];
    AloneTests(w, t, step);
    AloneMisses(w, t, step);
    AloneFills(w, t, step, base, size);
    LeadsOn(w, run, Goes(w, t, Testing(Shared, step)), t, Test, Goes(w, t, Missed(step)));
    run := run + [Move(t, Test)];
    LeadsOn(w, run, Goes(w, t, Missed(step)), t, LockExclusive, Goes(w, t, Checking(step)));
    run := run + [Move(t, LockExclusive)];
    LeadsOn(w, run, Goes(w, t, Checking(step)), t, Check, Goes(w, t, Filling(step)));
    run := run + [Move(t, Check)];
    var filled := Refilled(w, base, size);
    LeadsOn(w, run, Goes(w, t, Filling(step)), t, Refill(base, size), Goes(filled, t, Testing(Exclusive, step)));
    run := run + [Move(t, Refill(base, size))];
    AloneTakes(w, run, filled, t, Exclusive, step);
    assert AloneRefilled(t, step, base, size) == run + [Move(t, Test)] + [Move(t, Add)] + [Move(t, Compare)];
  }

  /** A thread that holds the write lock always gets a range. */
  lemma RetryNeverFails(w: Worker, run: seq<Move>, t: nat)
    requires Initial(w) && Possible(w, run) && t < |w.threads|
    ensures |After(w, run).threads| == |w.threads| && !After(w, run).threads[t].Failed?
  {
    EveryRun(w, run);
    ThreadsStay(w, run);
    assert ThreadOk(After(w, run), After(w, run).threads[t]);
  }

  lemma {:induction false} ThreadsStay(w: Worker, run: seq<Move>)
    requires Possible(w, run)
    ensures |After(w, run).threads| == |w.threads|
    decreases |run|
  {
    if run != [] { ThreadsStay(Do(w, run[0].thread, run[0].action), run[1..]); }
  }

  /** All of block b has been handed out: it is an old one, or value has reached max and nobody is
      between adding and returning. */
  predicate Spent(w: Worker, b: nat) {
    1 <= b < |w.blocks| ||
    (b == |w.blocks| && w.value >= w.max && forall t :: 0 <= t < |w.threads| ==> !w.threads[t].Comparing?)
  }

  /** The grants from a spent block partition it: every id of it is in one grant and in no other. */
  lemma SpentBlockIsPartitioned(w: Worker, run: seq<Move>, b: nat, x: int)
    requires Initial(w) && Possible(w, run) && Spent(After(w, run), b)
    ensures var w' := After(w, run);
      && 1 <= b <= |w'.blocks|
      && (w'.blocks[b - 1].base < x <= w'.blocks[b - 1].max <==> GrantedFrom(w', b, x))
      && (forall j, k :: 0 <= j < k < |w'.grants| ==>
            !(w'.grants[j].min <= x <= w'.grants[j].max && w'.grants[k].min <= x <= w'.grants[k].max))
  {
    EveryRun(w, run);
    var w' := After(w, run);
    if w'.blocks[b - 1].base < x <= w'.blocks[b - 1].max {
      assert b == |w'.blocks| ==> !Claimed(w', x);
    }
    forall k | 0 <= k < |w'.grants| && w'.grants[k].block == b && w'.grants[k].min <= x <= w'.grants[k].max
      ensures w'.blocks[b - 1].base < x <= w'.blocks[b - 1].max
    {
      assert GrantOk(w', w'.grants[k]);
    }
  }
}

/** Tagging ids with the data centre, and a system of workers. */
module SequenceSystem {
  import opened Sequence

  const DATACENTER_BITS_32 := 5
  const DATACENTER_BITS_64 := 10
  const SEQUENCE_BITS_32 := 31 - DATACENTER_BITS_32
  const SEQUENCE_BITS_64 := 61 - DATACENTER_BITS_64

  function Pow2(k: nat): (p: nat)
    ensures p > 0
  {
    if k == 0 then 1 else 2 * Pow2(k - 1)
  }

  /** The | of C on non-negative integers. */
  function BitOr(a: nat, b: nat): nat {
    if a == 0 then b else if b == 0 then a
    else 2 * BitOr(a / 2, b / 2) + (if a % 2 == 1 || b % 2 == 1 then 1 else 0)
  }

  /** Where bits do not meet, | is +. */
  lemma {:induction false} OrIsAddition(d: nat, k: nat, b: nat)
    requires b < Pow2(k)
    ensures BitOr(d * Pow2(k), b) == d * Pow2(k) + b
    decreases k
  {
    if d != 0 && k > 0 {
      var a, h := d * Pow2(k), d * Pow2(k - 1);
      assert a == 2 * h;
      OrIsAddition(d, k - 1, b / 2);
      assert a / 2 == h && a % 2 == 0;
      if b != 0 && a != 0 { assert BitOr(a, b) == 2 * BitOr(h, b / 2) + b % 2; }
    }
  }

  predicate Tagging(seqBits: int) { seqBits == 32 || seqBits == 64 }

  function SequenceBits(seqBits: int): nat
    requires Tagging(seqBits)
  {
    if seqBits == 32 then SEQUENCE_BITS_32 else SEQUENCE_BITS_64
  }

  function DatacenterBits(seqBits: int): nat
    requires Tagging(seqBits)
  {
    if seqBits == 32 then DATACENTER_BITS_32 else DATACENTER_BITS_64
  }

  /** The constructor throws for other data centres; without tagging it takes any. */
  predicate Accepts(seqBits: int, datacenter: int) {
    Tagging(seqBits) ==> 0 <= datacenter < Pow2(DatacenterBits(seqBits))
  }

  function Tag(seqBits: int, datacenter: int, raw: nat): nat
    requires Accepts(seqBits, datacenter)
  {
    if Tagging(seqBits) then BitOr(datacenter * Pow2(SequenceBits(seqBits)), raw) else raw
  }

  lemma {:induction false} Pow2Adds(j: nat, k: nat)
    ensures Pow2(j + k) == Pow2(j) * Pow2(k)
    decreases j
  {
    if j > 0 { Pow2Adds(j - 1, k); assert Pow2(j + k) == 2 * (Pow2(j - 1) * Pow2(k)); }
  }

  lemma SmallProduct(d: nat, m: nat, p: nat, raw: nat)
    requires d < m && raw < p
    ensures d * p + raw < m * p
  {
    assert d * p + p == (d + 1) * p;
    assert (d + 1) * p <= m * p;
  }

  /** Tagging adds datacenter * 2^bits and stays inside 31 or 61 bits. */
  lemma TagIsAddition(seqBits: int, datacenter: int, raw: nat)
    requires Tagging(seqBits) && Accepts(seqBits, datacenter) && raw < Pow2(SequenceBits(seqBits))
    ensures Tag(seqBits, datacenter, raw) == datacenter * Pow2(SequenceBits(seqBits)) + raw
    ensures Tag(seqBits, datacenter, raw) < Pow2(DatacenterBits(seqBits) + SequenceBits(seqBits))
  {
    hide Pow2, BitOr;
    var k := SequenceBits(seqBits);
    OrIsAddition(datacenter, k, raw);
    Pow2Adds(DatacenterBits(seqBits), k);
    SmallProduct(datacenter, Pow2(DatacenterBits(seqBits)), Pow2(k), raw);
  }

  /** The ids of a tagged range are the tagged ids of the range, and as many. */
  lemma TagKeepsRanges(seqBits: int, datacenter: int, min: nat, max: nat, id: nat)
    requires Tagging(seqBits) && Accepts(seqBits, datacenter) && min <= max < Pow2(SequenceBits(seqBits))
    ensures Tag(seqBits, datacenter, max) - Tag(seqBits, datacenter, min) == max - min
    ensures Tag(seqBits, datacenter, min) <= id <= Tag(seqBits, datacenter, max) <==>
            exists raw :: min <= raw <= max && id == Tag(seqBits, datacenter, raw)
  {
    hide Tag, Pow2;
    var m := datacenter * Pow2(SequenceBits(seqBits));
    forall raw: nat | min <= raw <= max
      ensures Tag(seqBits, datacenter, raw) == m + raw { TagIsAddition(seqBits, datacenter, raw); }
    if m + min <= id <= m + max { assert id == Tag(seqBits, datacenter, id - m); }
  }

  /** Tagged ids of different data centres, or of different raw ids, differ. */
  lemma TagsDiffer(seqBits: int, d: int, raw: nat, d': int, raw': nat)
    requires Tagging(seqBits) && Accepts(seqBits, d) && Accepts(seqBits, d') && (d != d' || raw != raw')
    requires raw < Pow2(SequenceBits(seqBits)) && raw' < Pow2(SequenceBits(seqBits))
    ensures Tag(seqBits, d, raw) != Tag(seqBits, d', raw')
  {
    hide Tag, Pow2;
    TagIsAddition(seqBits, d, raw);
    TagIsAddition(seqBits, d', raw');
    var p := Pow2(SequenceBits(seqBits));
    if d < d' { SmallProduct(d, d', p, raw); }
    if d' < d { SmallProduct(d', d, p, raw'); }
  }

  // ---------------------------------------------------------------- a system of workers

  datatype Site = Site(datacenter: int, worker: Worker)
  datatype SiteMove = SiteMove(site: nat, move: Move)

  predicate PossibleAll(sites: seq<Site>, run: seq<SiteMove>)
    decreases |run|
  {
    run == [] ||
    (var s := run[0].site;
     s < |sites| && Enabled(sites[s].worker, run[0].move.thread, run[0].move.action)
     && PossibleAll(Next(sites, run[0]), run[1..]))
  }

  function Next(sites: seq<Site>, m: SiteMove): seq<Site>
    requires m.site < |sites| && Enabled(sites[m.site].worker, m.move.thread, m.move.action)
  {
    sites[m.site := sites[m.site].(worker := Do(sites[m.site].worker, m.move.thread, m.move.action))]
  }

  function AfterAll(sites: seq<Site>, run: seq<SiteMove>): seq<Site>
    requires PossibleAll(sites, run)
    decreases |run|
  {
    if run == [] then sites else AfterAll(Next(sites, run[0]), run[1..])
  }

  predicate Distinct(seqBits: int, sites: seq<Site>) {
    && (forall i :: 0 <= i < |sites| ==> Accepts(seqBits, sites[i].datacenter))
    && (forall i, j :: 0 <= i < j < |sites| ==> sites[i].datacenter != sites[j].datacenter)
  }

  ghost predicate AllInvariant(sites: seq<Site>) { forall i :: 0 <= i < |sites| ==> Invariant(sites[i].worker) }

  lemma {:induction false} SystemKeeps(seqBits: int, sites: seq<Site>, run: seq<SiteMove>)
    requires AllInvariant(sites) && Distinct(seqBits, sites) && PossibleAll(sites, run)
    ensures AllInvariant(AfterAll(sites, run)) && Distinct(seqBits, AfterAll(sites, run))
    decreases |run|
  {
    hide Do, Enabled, Invariant, Accepts;
    if run != [] {
      var m := run[0];
      StepKeepsInvariant(sites[m.site].worker, m.move.thread, m.move.action);
      SystemKeeps(seqBits, Next(sites, m), run[1..]);
    }
  }

  /** The id is in the range that getAndIncrement returned to the k-th successful call at the site. */
  predicate Issued(seqBits: int, s: Site, k: nat, id: nat)
    requires Accepts(seqBits, s.datacenter)
  {
    k < |s.worker.grants| && 0 <= s.worker.grants[k].min && 0 <= s.worker.grants[k].max
    && Tag(seqBits, s.datacenter, s.worker.grants[k].min) <= id <= Tag(seqBits, s.datacenter, s.worker.grants[k].max)
  }

  /** All raw ids of the database fit below the data centre. */
  predicate Fits(seqBits: int, w: Worker)
    requires Tagging(seqBits)
  {
    forall b :: 0 <= b < |w.blocks| ==> 0 <= w.blocks[b].base && w.blocks[b].max < Pow2(SequenceBits(seqBits))
  }

  /** An issued id comes from a raw id of its grant. */
  lemma RawId(seqBits: int, s: Site, k: nat, id: nat) returns (raw: nat)
    requires Tagging(seqBits) && Accepts(seqBits, s.datacenter) && Issued(seqBits, s, k, id)
    requires Invariant(s.worker) && Fits(seqBits, s.worker)
    ensures s.worker.grants[k].min <= raw <= s.worker.grants[k].max < Pow2(SequenceBits(seqBits))
    ensures id == Tag(seqBits, s.datacenter, raw)
  {
    hide Tag, Accepts, NothingLost, BlocksApart, Excludes, ThreadsOk, ClaimsApart, GrantsApartFromClaims;
    var g := s.worker.grants[k];
    assert GrantOk(s.worker, g);
    TagKeepsRanges(seqBits, s.datacenter, g.min, g.max, id);
    raw :| g.min <= raw <= g.max && id == Tag(seqBits, s.datacenter, raw);
  }

  /** No id is issued twice, in the whole system, over any run. */
  lemma NoIdTwice(seqBits: int, start: seq<Site>, run: seq<SiteMove>, i: nat, k: nat, i': nat, k': nat, id: nat)
    requires Tagging(seqBits) && Distinct(seqBits, start) && PossibleAll(start, run)
    requires forall s :: 0 <= s < |start| ==> Initial(start[s].worker)
    requires forall s :: 0 <= s < |AfterAll(start, run)| ==> Fits(seqBits, AfterAll(start, run)[s].worker)
    requires i < |AfterAll(start, run)| && i' < |AfterAll(start, run)|
    requires Accepts(seqBits, AfterAll(start, run)[i].datacenter)
        && Accepts(seqBits, AfterAll(start, run)[i'].datacenter)
    requires Issued(seqBits, AfterAll(start, run)[i], k, id) && Issued(seqBits, AfterAll(start, run)[i'], k', id)
    ensures i == i' && k == k'
  {
    forall s | 0 <= s < |start|
      ensures Invariant(start[s].worker) { assert Initial(start[s].worker); EveryRun(start[s].worker, []); }
    SystemKeeps(seqBits, start, run);
    var a, b := AfterAll(start, run)[i], AfterAll(start, run)[i'];
    hide Tag, Issued, Accepts, AfterAll, PossibleAll, Fits, NothingLost, BlocksApart, Excludes, ThreadsOk,
        ClaimsApart, GrantsApartFromClaims;
    var raw := RawId(seqBits, a, k, id);
    var raw' := RawId(seqBits, b, k', id);
    if i != i' || k != k' {
      assert i == i' ==> raw != raw';
      TagsDiffer(seqBits, a.datacenter, raw, b.datacenter, raw');
    }
  }
}
