/**
 * The x86 CPUID instruction seen as data. One query, for a (leaf, sub-leaf)
 * pair, yields the four 32-bit registers EAX, EBX, ECX and EDX; the C++
 * front ends keep them in `int cpuInfo[4]` in that order.
 */
module Registers {

  /** `cpuInfo[0..3]`: EAX, EBX, ECX, EDX. */
  datatype Regs = Regs(eax: bv32, ebx: bv32, ecx: bv32, edx: bv32)

  /**
   * The instruction: a total, deterministic function of the leaf (EAX) and
   * the `int` sub-leaf argument of `__cpuidex` (ECX).
   */
  type Cpuid = (bv32, int) -> Regs

  /** One byte of memory (a C `char`). */
  type Byte = bv8

  /** `cpuid(info, leaf)`: the intrinsic runs the instruction with sub-leaf 0. */
  function Query(cpuid: Cpuid, leaf: bv32): Regs
  {
    cpuid(leaf, 0)
  }

  /** Reassembles a 32-bit word from its four bytes, lowest byte first. */
  function Pack(b: seq<Byte>): bv32
    requires |b| == 4
  {
    (b[0] as bv32) | ((b[1] as bv32) << 8) | ((b[2] as bv32) << 16) | ((b[3] as bv32) << 24)
  }

  /**
   * The memory image of one register, as `memcpy` copies an `int` on a
   * little-endian machine: the lowest byte first.
   */
  function WordBytes(w: bv32): (b: seq<Byte>)
    ensures |b| == 4
    ensures Pack(b) == w
    ensures b[0] as bv32 == (w & 0xFF) && b[3] as bv32 == (w >> 24)
  {
    [(w & 0xFF) as Byte, ((w >> 8) & 0xFF) as Byte, ((w >> 16) & 0xFF) as Byte, (w >> 24) as Byte]
  }

  /** Two words with the same memory image are the same word. */
  lemma WordBytesInjective(v: bv32, w: bv32)
    requires WordBytes(v) == WordBytes(w)
    ensures v == w
  {
    assert Pack(WordBytes(v)) == Pack(WordBytes(w));
  }

  /** `cpuInfo` after one query: the four registers in array order. */
  function RegsWords(r: Regs): (ws: seq<bv32>)
    ensures |ws| == 4
  {
    [r.eax, r.ebx, r.ecx, r.edx]
  }

  /** The memory image of an `int` array: each word's four bytes, in array order. */
  function WordsBytes(ws: seq<bv32>): (b: seq<Byte>)
    ensures |b| == 4 * |ws|
  {
    if ws == [] then [] else WordBytes(ws[0]) + WordsBytes(ws[1..])
  }

  /** Every word of an `int` array can be read back from its four bytes in the image. */
  lemma {:induction false} WordsBytesUnpack(ws: seq<bv32>, i: nat)
    requires i < |ws|
    ensures 4 * i + 4 <= |WordsBytes(ws)|
    ensures Pack(WordsBytes(ws)[4 * i..4 * i + 4]) == ws[i]
  {
    var b := WordsBytes(ws);
    if i == 0 {
      assert b[..4] == WordBytes(ws[0]);
    } else {
      WordsBytesUnpack(ws[1..], i - 1);
      assert b[4 * i..4 * i + 4] == WordsBytes(ws[1..])[4 * (i - 1)..4 * (i - 1) + 4];
    }
  }

  /** A bit position within a 32-bit register. */
  type BitIndex = b: bv32 | b < 32

  /** The test `(w & (1 << bit)) != 0`. */
  predicate BitSet(w: bv32, bit: BitIndex)
  {
    (w & (1 << bit)) != 0
  }

  /** `w` with one bit inverted. */
  function FlipBit(w: bv32, bit: BitIndex): (v: bv32)
    ensures BitSet(v, bit) != BitSet(w, bit)
  {
    w ^ (1 << bit)
  }

  /** Inverting one bit leaves every other bit as it was. */
  lemma FlipBitKeepsOthers(w: bv32, bit: BitIndex, other: BitIndex)
    requires other != bit
    ensures BitSet(FlipBit(w, bit), other) == BitSet(w, other)
  {
    assert ((1 as bv32) << bit) & ((1 as bv32) << other) == 0;
  }

  /** The value a C `unsigned` (or `DWORD`) holds when its 32 bits are `w`. */
  function AsUInt32(w: bv32): (n: nat)
    ensures n == w as int
    ensures n < 0x1_0000_0000
    ensures w < 0x8000_0000 ==> n == AsInt32(w)
    ensures w >= 0x8000_0000 ==> n == AsInt32(w) + 0x1_0000_0000
  {
    w as int
  }

  /**
   * The value a C `int` holds when its 32 bits are `w` (two's complement):
   * the low 31 bits, less 2^31 when the sign bit is set.
   */
  function AsInt32(w: bv32): (i: int)
    ensures i == if w < 0x8000_0000 then w as int else w as int - 0x1_0000_0000
    ensures -0x8000_0000 <= i < 0x8000_0000
    ensures i < 0 <==> w >= 0x8000_0000
  {
    if w < 0x8000_0000 then (w as bv31) as int
    else ((w - 0x8000_0000) as bv31) as int - 0x8000_0000
  }
}
