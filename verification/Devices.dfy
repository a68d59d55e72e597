/** Device registers and device semaphores (phase2/interrupts.c, phase2/headers/initial.h). */
module Devices {

  const START_DEVREG := 0x1000_0054
  const DEVREG_SIZE := 16
  const DEVS_PER_LINE := 8
  const TERMINAL_LINE := 7
  const PSEUDO_CLOCK_SEM := 48

  /** getDeviceIndex */
  function DeviceIndex(line: int, dev: int): (i: nat)
    requires 3 <= line && 0 <= dev
  {
    (line - 3) * 8 + dev
  }

  /** DEVREGADDR: the first register of a device. */
  function RegisterAddress(line: int, dev: int): int {
    0x1000_0000 + 0x54 + (line - 3) * DEVREG_SIZE * DEVS_PER_LINE + dev * DEVREG_SIZE
  }

  /** DEV_NO_BY_DEV_ADDR of the register block that doio computes from a command register, in 32 bits. */
  function CommandIndex(address: int): nat {
    ((address - 4 - START_DEVREG) % 0x1_0000_0000) / DEVREG_SIZE
  }

  /** Bit i of a line's interrupt bitmap. */
  predicate Pending(bitmap: bv32, i: nat)
    requires i < DEVS_PER_LINE
  {
    bitmap & ((1 as bv32) << i) != 0
  }

  lemma Masks(b: bv32)
    ensures b % 2 == b & 1 && b % 4 == b & 3 && b % 8 == b & 7 && b % 16 == b & 15
    ensures b % 32 == b & 31 && b % 64 == b & 63 && b % 128 == b & 127 && b % 256 == b & 255
  {
  }

  lemma SingleBits(b: bv32)
    ensures Pending(b, 0) <==> b & 1 != 0
    ensures Pending(b, 1) <==> b & 2 != 0
    ensures Pending(b, 2) <==> b & 4 != 0
    ensures Pending(b, 3) <==> b & 8 != 0
    ensures Pending(b, 4) <==> b & 16 != 0
    ensures Pending(b, 5) <==> b & 32 != 0
    ensures Pending(b, 6) <==> b & 64 != 0
    ensures Pending(b, 7) <==> b & 128 != 0
  {
    assert (1 as bv32) << 0 == 1 && (1 as bv32) << 1 == 2 && (1 as bv32) << 2 == 4 && (1 as bv32) << 3 == 8;
    assert (1 as bv32) << 4 == 16 && (1 as bv32) << 5 == 32 && (1 as bv32) << 6 == 64 && (1 as bv32) << 7 == 128;
  }

  /** What the lowest set bit says about the bitmap as a number: the power of two up to which it is a multiple. */
  lemma LowestBit(b: bv32)
    ensures b % 2 == 1 <==> b & 1 != 0
    ensures b % 4 == 2 <==> b & 1 == 0 && b & 2 != 0
    ensures b % 8 == 4 <==> b & 1 == 0 && b & 2 == 0 && b & 4 != 0
    ensures b % 16 == 8 <==> b & 1 == 0 && b & 2 == 0 && b & 4 == 0 && b & 8 != 0
    ensures b % 32 == 16 <==> b & 1 == 0 && b & 2 == 0 && b & 4 == 0 && b & 8 == 0 && b & 16 != 0
    ensures b % 64 == 32 <==>
      b & 1 == 0 && b & 2 == 0 && b & 4 == 0 && b & 8 == 0 && b & 16 == 0 && b & 32 != 0
    ensures b % 128 == 64 <==>
      b & 1 == 0 && b & 2 == 0 && b & 4 == 0 && b & 8 == 0 && b & 16 == 0 && b & 32 == 0 && b & 64 != 0
    ensures b % 256 == 128 <==>
      b & 1 == 0 && b & 2 == 0 && b & 4 == 0 && b & 8 == 0 && b & 16 == 0 && b & 32 == 0 && b & 64 == 0 && b & 128 != 0
    ensures b % 256 == 0 <==>
      b & 1 == 0 && b & 2 == 0 && b & 4 == 0 && b & 8 == 0 && b & 16 == 0 && b & 32 == 0 && b & 64 == 0 && b & 128 == 0
  {
    Masks(b);
  }

  /** The device that the lowest pending bit stands for, in terms of the bitmap as a number. */
  lemma LowestPending(b: bv32, dev: int)
    requires -1 <= dev < 8
    requires dev >= 0 ==> Pending(b, dev) && forall i: nat :: i < dev ==> !Pending(b, i)
    requires dev < 0 ==> forall i: nat :: i < 8 ==> !Pending(b, i)
    ensures dev == 0 <==> b % 2 == 1
    ensures dev == 1 <==> b % 4 == 2
    ensures dev == 2 <==> b % 8 == 4
    ensures dev == 3 <==> b % 16 == 8
    ensures dev == 4 <==> b % 32 == 16
    ensures dev == 5 <==> b % 64 == 32
    ensures dev == 6 <==> b % 128 == 64
    ensures dev == 7 <==> b % 256 == 128
    ensures dev == -1 <==> b % 256 == 0
  {
    SingleBits(b);
    LowestBit(b);
    hide Pending;
    assert dev > 0 ==> !Pending(b, 0);
    assert dev > 1 ==> !Pending(b, 1);
    assert dev > 2 ==> !Pending(b, 2);
    assert dev > 3 ==> !Pending(b, 3);
    assert dev > 4 ==> !Pending(b, 4);
    assert dev > 5 ==> !Pending(b, 5);
    assert dev > 6 ==> !Pending(b, 6);
  }

  /**
    The device that handleDeviceInterrupt serves: the one of the lowest set bit among the first
    eight, -1 when they are all 0. As a number, the bitmap is an odd multiple of 2 to that power.
  */
  method FirstPending(bitmap: bv32) returns (dev: int)
    ensures -1 <= dev < 8
    ensures dev == 0 <==> bitmap % 2 == 1
    ensures dev == 1 <==> bitmap % 4 == 2
    ensures dev == 2 <==> bitmap % 8 == 4
    ensures dev == 3 <==> bitmap % 16 == 8
    ensures dev == 4 <==> bitmap % 32 == 16
    ensures dev == 5 <==> bitmap % 64 == 32
    ensures dev == 6 <==> bitmap % 128 == 64
    ensures dev == 7 <==> bitmap % 256 == 128
    ensures dev == -1 <==> bitmap % 256 == 0
  {
    hide Pending;
    dev := -1;
    var i := 0;
    while i < DEVS_PER_LINE
      invariant 0 <= i <= DEVS_PER_LINE && dev == -1
      invariant forall j: nat :: j < i ==> !Pending(bitmap, j)
    {
      if Pending(bitmap, i) {
        dev := i;
        break;
      }
      i := i + 1;
    }
    LowestPending(bitmap, dev);
  }
}
