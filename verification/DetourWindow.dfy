/** Where a trampoline may lie, and the jumps between a target and its trampoline
    (app/hook-win32/src/detours.cpp, x64). */
module DetourWindow {
  import opened Basics

  const SIZE_64 := 0x1_0000_0000_0000_0000
  const REACH := 0x7ff80000

  /** ULONG_PTR. */
  type Address = a: int | 0 <= a < SIZE_64

  /** detour_2gb_below and detour_2gb_above. */
  function Below(a: Address): Address { if a > REACH then a - REACH else 0x80000 }
  function Above(a: Address): Address { if a < 0xffff_ffff_8000_0000 then a + REACH else 0xffff_ffff_fff8_0000 }

  // ---------------------------------------------------------------- rel32

  predicate FitsInt32(x: int) { -0x8000_0000 <= x < 0x8000_0000 }

  /** An INT32 in memory, and read back. */
  function Bytes32(x: int): (b: seq<byte>)
    ensures |b| == 4
  {
    var u := x % 0x1_0000_0000;
    [u % 256, u / 256 % 256, u / 65536 % 256, u / 16777216]
  }

  function Int32(b: seq<byte>): (x: int)
    requires |b| == 4
    ensures FitsInt32(x)
  {
    var u := (b[0] as int) + 256 * ((b[1] as int) + 256 * ((b[2] as int) + 256 * (b[3] as int)));
    if u < 0x8000_0000 then u else u - 0x1_0000_0000
  }

  lemma SplitBytes(u: int)
    requires 0 <= u < 0x1_0000_0000
    ensures u % 256 + 256 * (u / 256 % 256 + 256 * (u / 65536 % 256 + 256 * (u / 16777216))) == u
  {
    var a := u / 256;
    var b := a / 256;
    assert u / 65536 == b && b / 256 == u / 16777216;
    assert u == 256 * a + u % 256 && a == 256 * b + a % 256 && b == 256 * (b / 256) + b % 256;
  }

  lemma Int32ReadsBack(x: int)
    requires FitsInt32(x)
    ensures Int32(Bytes32(x)) == x
  {
    SplitBytes(x % 0x1_0000_0000);
  }

  function Wrap(a: int): Address { a % SIZE_64 }

  /** detour_gen_jmp_immediate, and where such a jump at `at` goes. */
  function JmpImmediate(at: Address, dest: Address): (b: seq<byte>)
    ensures |b| == 5
  {
    [0xE9] + Bytes32(dest - (at + 5))
  }

  function JmpDest(at: Address, code: seq<byte>): Address
    requires |code| >= 5
  {
    Wrap(at + 5 + Int32(code[1..5]))
  }

  /** detour_gen_jmp_indirect, and the cell such a jump at `at` goes through. */
  function JmpIndirect(at: Address, cell: Address): (b: seq<byte>)
    ensures |b| == 6
  {
    [0xFF, 0x25] + Bytes32(cell - (at + 6))
  }

  function JmpCell(at: Address, code: seq<byte>): Address
    requires |code| >= 6
  {
    Wrap(at + 6 + Int32(code[2..6]))
  }

  // ---------------------------------------------------------------- the window

  datatype Window = Window(lo: Address, hi: Address) {
    predicate Has(a: int) { lo <= a <= hi }
  }

  /** detour_find_jmp_bounds, given the first bytes of the target. */
  function FindBounds(target: Address, code: seq<byte>): Window
    requires |code| >= 6
  {
    var lo, hi := Below(target), Above(target);
    if code[0] == 0xFF && code[1] == 0x25 then
      var dest := JmpCell(target, code);
      if dest < target then Window(lo, Above(dest)) else Window(Below(dest), hi)
    else if code[0] == 0xE9 then
      var dest := JmpDest(target, code);
      if dest < target then Window(lo, Above(dest)) else Window(Below(dest), hi)
    else Window(lo, hi)
  }

  predicate InReach(a: int, b: int) { -REACH <= a - b <= REACH }

  /** Where the code at the target jumps to, if it starts with a relative jump. */
  function Vectors(target: Address, code: seq<byte>): set<Address>
    requires |code| >= 6
  {
    if code[0] == 0xFF && code[1] == 0x25 then {JmpCell(target, code)}
    else if code[0] == 0xE9 then {JmpDest(target, code)} else {}
  }

  /** Both ends of the window are within reach of the target, and of its jump destination wherever
      that is, also when its address wraps around. */
  lemma WindowIsInReach(target: Address, code: seq<byte>, a: int)
    requires |code| >= 6 && FindBounds(target, code).Has(a)
    ensures InReach(a, target) && forall v :: v in Vectors(target, code) ==> InReach(a, v)
  {
    hide JmpCell, JmpDest;
  }

  // ---------------------------------------------------------------- the trampoline

  const TRAMPOLINE := 96
  const PB_REMAIN := 72
  const PB_DETOUR := 80
  const RB_CODE_IN := 88

  /** For a trampoline in the window: the jump written over the target fits in 32 bits and lands on
      rbCodeIn, and the jumps inside the trampoline go through pbDetour and pbRemain. */
  lemma JumpsLand(target: Address, code: seq<byte>, slot: Address, cbCode: nat)
    requires |code| >= 6 && FindBounds(target, code).Has(slot) && slot + TRAMPOLINE < SIZE_64
    requires cbCode <= 30 && target + 5 < SIZE_64
    ensures FitsInt32(slot + RB_CODE_IN - (target + 5))
    ensures JmpDest(target, JmpImmediate(target, slot + RB_CODE_IN)) == slot + RB_CODE_IN
    ensures JmpCell(slot + RB_CODE_IN, JmpIndirect(slot + RB_CODE_IN, slot + PB_DETOUR)) == slot + PB_DETOUR
    ensures JmpCell(slot + cbCode, JmpIndirect(slot + cbCode, slot + PB_REMAIN)) == slot + PB_REMAIN
  {
    WindowIsInReach(target, code, slot);
    ImmediateLands(target, slot + RB_CODE_IN);
    IndirectLands(slot + RB_CODE_IN, slot + PB_DETOUR);
    IndirectLands(slot + cbCode, slot + PB_REMAIN);
  }

  lemma ImmediateLands(at: Address, dest: Address)
    requires FitsInt32(dest - (at + 5))
    ensures JmpDest(at, JmpImmediate(at, dest)) == dest
  {
    hide Bytes32, Int32;
    Int32ReadsBack(dest - (at + 5));
    assert JmpImmediate(at, dest)[1..5] == Bytes32(dest - (at + 5));
  }

  lemma IndirectLands(at: Address, cell: Address)
    requires FitsInt32(cell - (at + 6))
    ensures JmpCell(at, JmpIndirect(at, cell)) == cell
  {
    hide Bytes32, Int32;
    Int32ReadsBack(cell - (at + 6));
    assert JmpIndirect(at, cell)[2..6] == Bytes32(cell - (at + 6));
  }
}
