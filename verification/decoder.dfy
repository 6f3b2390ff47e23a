/**
 * The CPUID decoder, written once: what both front ends compute from the
 * registers of each leaf. Every function here is a specification that the
 * front-end methods are proved against; the lemmas state what the decoded
 * facts mean in terms of the registers.
 */
module Decoder {
  import opened Registers
  import opened Text

  datatype Option<T> = None | Some(value: T)

  // -------------------------------------------------------------------------
  // Leaf 0: vendor identification
  // -------------------------------------------------------------------------

  /** The 12 bytes copied into the vendor buffer: EBX, then EDX, then ECX. */
  function VendorBytes(r: Regs): (b: seq<Byte>)
    ensures |b| == 12
    ensures Pack(b[0..4]) == r.ebx && Pack(b[4..8]) == r.edx && Pack(b[8..12]) == r.ecx
  {
    var x, y, z := WordBytes(r.ebx), WordBytes(r.edx), WordBytes(r.ecx);
    var b := x + y + z;
    assert b[0..4] == x;
    assert b[4..8] == y;
    assert b[|x + y|..] == z;
    b
  }

  /** The zeroed 13-byte vendor buffer after the three copies. */
  function VendorBuffer(r: Regs): seq<Byte>
  {
    VendorBytes(r) + [NUL]
  }

  /** The vendor as printed and searched: the buffer read as a C string. */
  function Vendor(cpuid: Cpuid): seq<Byte>
  {
    CString(VendorBuffer(Query(cpuid, 0)))
  }

  function VendorText(cpuid: Cpuid): string
  {
    Chars(Vendor(cpuid))
  }

  /**
   * The vendor is the register bytes up to the first NUL: at most 12 bytes,
   * a prefix of EBX, EDX, ECX, and cut exactly where a NUL byte stands.
   */
  lemma VendorIsNulTrimmed(cpuid: Cpuid)
    ensures var v, b := Vendor(cpuid), VendorBytes(Query(cpuid, 0));
      && |v| <= 12
      && v == b[..|v|]
      && NUL !in v
      && (|v| < 12 ==> b[|v|] == NUL)
  {
    var b := VendorBytes(Query(cpuid, 0));
    CStringTerminated(b);
    CStringIsPrefix(b);
  }

  // -------------------------------------------------------------------------
  // Leaf 1, EAX: the processor signature
  // -------------------------------------------------------------------------

  /** Family, model, stepping and type as the front ends print them. */
  datatype Signature = Signature(family: bv32, model: bv32, stepping: bv32, kind: bv32)

  function Stepping(eax: bv32): bv32 { eax & 0x0F }             // EAX[3:0]
  function BaseModel(eax: bv32): bv32 { (eax >> 4) & 0x0F }     // EAX[7:4]
  function BaseFamily(eax: bv32): bv32 { (eax >> 8) & 0x0F }    // EAX[11:8]
  function ProcessorType(eax: bv32): bv32 { (eax >> 12) & 0x03 } // EAX[13:12]
  function ExtModel(eax: bv32): bv32 { (eax >> 16) & 0x0F }     // EAX[19:16]
  function ExtFamily(eax: bv32): bv32 { (eax >> 20) & 0xFF }    // EAX[27:20]

  /** The family as printed: the extended family is added to a base family of 0xF. */
  function Family(eax: bv32): bv32
  {
    if BaseFamily(eax) == 0xF then BaseFamily(eax) + ExtFamily(eax) else BaseFamily(eax)
  }

  /**
   * The model as printed: the extended model is merged when the family,
   * AFTER its update, is 6 or 0xF.
   */
  function Model(eax: bv32): bv32
  {
    if Family(eax) == 0x6 || Family(eax) == 0xF then BaseModel(eax) + (ExtModel(eax) << 4) else BaseModel(eax)
  }

  /** The decode both front ends perform. */
  function DecodeSignature(eax: bv32): Signature
  {
    Signature(Family(eax), Model(eax), Stepping(eax), ProcessorType(eax))
  }

  function SignatureOf(cpuid: Cpuid): Signature
  {
    DecodeSignature(Query(cpuid, 1).eax)
  }

  /** Ranges of the decoded fields; no field can overflow its type. */
  lemma SignatureRanges(eax: bv32)
    ensures var s := DecodeSignature(eax);
      && s.stepping < 16 && s.kind < 4
      && s.family <= 0xF + 0xFF
      && s.model < 0x100
  {
  }

  /**
   * The two conditional merges, stated on the fields: the family is
   * extended exactly when the base family is 0xF, and the model gains
   * EAX[19:16] << 4 exactly when the base family is 6, or 0xF with a zero
   * extended family.
   */
  lemma SignatureMerges(eax: bv32)
    ensures var s := DecodeSignature(eax);
      && s.family == (if BaseFamily(eax) == 0xF then 0xF + ExtFamily(eax) else BaseFamily(eax))
      && s.model == (if BaseFamily(eax) == 0x6 || (BaseFamily(eax) == 0xF && ExtFamily(eax) == 0)
                     then BaseModel(eax) | (ExtModel(eax) << 4)
                     else BaseModel(eax))
  {
  }

  /**
   * The rule of the Intel SDM (Vol. 2A, CPUID, leaf 01H): DisplayFamily adds
   * the extended family when the family ID is 0xF; DisplayModel merges the
   * extended model when the family ID (the base field) is 6 or 0xF.
   */
  function SdmSignature(eax: bv32): Signature
  {
    Signature(Family(eax), SdmModel(eax), Stepping(eax), ProcessorType(eax))
  }

  /** DisplayModel: the extended model is merged when the base family field is 6 or 0xF. */
  function SdmModel(eax: bv32): bv32
  {
    if BaseFamily(eax) == 0x6 || BaseFamily(eax) == 0xF then (ExtModel(eax) << 4) + BaseModel(eax) else BaseModel(eax)
  }

  /**
   * The front ends agree with the SDM on family, stepping and type always,
   * and on the model exactly unless the base family is 0xF with a nonzero
   * extended family and a nonzero extended model: there the model is left
   * un-extended.
   */
  lemma DecodeVersusSdm(eax: bv32)
    ensures DecodeSignature(eax).family == SdmSignature(eax).family
    ensures DecodeSignature(eax).stepping == SdmSignature(eax).stepping
    ensures DecodeSignature(eax).kind == SdmSignature(eax).kind
    ensures DecodeSignature(eax).model == SdmSignature(eax).model
        <==> !(BaseFamily(eax) == 0xF && ExtFamily(eax) != 0 && ExtModel(eax) != 0)
  {
  }

  /**
   * Two signatures: 0x000306A9 decodes to family 6, model 58, stepping 9;
   * 0x00870F10 (family 0x17, extended model 7) prints model 1 where the SDM
   * gives 0x71.
   */
  lemma SignatureExamples()
    ensures DecodeSignature(0x0003_06A9) == Signature(6, 58, 9, 0)
    ensures DecodeSignature(0x0087_0F10) == Signature(0x17, 1, 0, 0)
    ensures SdmSignature(0x0087_0F10) == Signature(0x17, 0x71, 0, 0)
  {
  }

  // -------------------------------------------------------------------------
  // Leaves 0x80000000, 0x80000002..0x80000004: the brand string
  // -------------------------------------------------------------------------

  /** EAX of leaf 0x80000000: the highest extended leaf, compared unsigned. */
  function MaxExtended(cpuid: Cpuid): bv32
  {
    Query(cpuid, 0x8000_0000).eax
  }

  /** `int brandData[12]` after the three brand leaves, each in EAX, EBX, ECX, EDX order. */
  function BrandWords(cpuid: Cpuid): (ws: seq<bv32>)
    ensures |ws| == 12
  {
    RegsWords(Query(cpuid, 0x8000_0002)) + RegsWords(Query(cpuid, 0x8000_0003))
      + RegsWords(Query(cpuid, 0x8000_0004))
  }

  /** The 48 bytes copied out of `brandData`. */
  function BrandBytes(cpuid: Cpuid): (b: seq<Byte>)
    ensures |b| == 48
  {
    WordsBytes(BrandWords(cpuid))
  }

  /** The zeroed 49-byte brand buffer after the 48-byte copy. */
  function BrandBuffer(cpuid: Cpuid): seq<Byte>
  {
    BrandBytes(cpuid) + [NUL]
  }

  /** The printed brand, or None for "<Not available>". */
  function Brand(cpuid: Cpuid): Option<seq<Byte>>
  {
    if MaxExtended(cpuid) >= 0x8000_0004 then Some(CString(SkipSpaces(BrandBuffer(cpuid))))
    else None
  }

  /** The brand is absent exactly when the highest extended leaf is below 0x80000004. */
  lemma BrandAbsence(cpuid: Cpuid)
    ensures Brand(cpuid).None? <==> MaxExtended(cpuid) < 0x8000_0004
  {
  }

  /**
   * A present brand starts at the first non-space byte `k` of the 48 brand
   * bytes (k <= 48) and runs up to the first NUL after it or to the end of
   * the 48 bytes; it holds no NUL and does not start with a space.
   */
  lemma BrandIsTrimmed(cpuid: Cpuid) returns (k: nat)
    requires MaxExtended(cpuid) >= 0x8000_0004
    ensures var b, raw := Brand(cpuid).value, BrandBytes(cpuid);
      && k <= 48
      && (forall i :: 0 <= i < k ==> raw[i] == SPACE)
      && (k < 48 ==> raw[k] != SPACE)
      && k + |b| <= 48
      && b == raw[k..k + |b|]
      && NUL !in b
      && (k + |b| < 48 ==> raw[k + |b|] == NUL)
  {
    k := TrimmedText(BrandBytes(cpuid));
  }

  // -------------------------------------------------------------------------
  // Leaves 1 and 0x80000001, ECX and EDX: feature flags
  // -------------------------------------------------------------------------

  datatype FlagRegister = Ecx | Edx

  /** One line of the feature list: its name and the register bit it tests. */
  datatype FlagSpec = FlagSpec(name: string, reg: FlagRegister, bit: BitIndex)

  /** The standard flags of leaf 1, in print order. */
  const StandardFlags: seq<FlagSpec> := [
    FlagSpec("SSE", Edx, 25), FlagSpec("SSE2", Edx, 26), FlagSpec("SSE3", Ecx, 0),
    FlagSpec("SSSE3", Ecx, 9), FlagSpec("SSE4.1", Ecx, 19), FlagSpec("SSE4.2", Ecx, 20),
    FlagSpec("AVX", Ecx, 28), FlagSpec("FMA3", Ecx, 12), FlagSpec("PCLMUL", Ecx, 1),
    FlagSpec("AES", Ecx, 25)]

  /** The extended flags of leaf 0x80000001, in print order. */
  const ExtendedFlags: seq<FlagSpec> := [
    FlagSpec("x86-64 (LM)", Edx, 29), FlagSpec("RDTSCP", Ecx, 27),
    FlagSpec("SSE4a(AMD)", Ecx, 6), FlagSpec("MMXExt(AMD)", Edx, 22)]

  /** No two flags of the table test the same bit of the same register. */
  predicate DistinctBits(table: seq<FlagSpec>)
  {
    forall i, j :: 0 <= i < j < |table| ==> table[i].reg != table[j].reg || table[i].bit != table[j].bit
  }

  lemma TablesValid()
    ensures DistinctBits(StandardFlags) && DistinctBits(ExtendedFlags)
  {
  }

  datatype Feature = Feature(name: string, present: bool)

  function Select(reg: FlagRegister, r: Regs): bv32
  {
    if reg == Ecx then r.ecx else r.edx
  }

  /** `(reg & (1 << bit)) != 0` for each flag of the table, in table order. */
  function DecodeFeatures(table: seq<FlagSpec>, r: Regs): (fs: seq<Feature>)
    ensures |fs| == |table|
  {
    seq(|table|, i requires 0 <= i < |table| =>
      Feature(table[i].name, BitSet(Select(table[i].reg, r), table[i].bit)))
  }

  /** The standard flags decoded, written out: each flag's name and its bit of EDX or ECX. */
  lemma StandardListed(r: Regs)
    ensures DecodeFeatures(StandardFlags, r) == [
      Feature("SSE", BitSet(r.edx, 25)), Feature("SSE2", BitSet(r.edx, 26)),
      Feature("SSE3", BitSet(r.ecx, 0)), Feature("SSSE3", BitSet(r.ecx, 9)),
      Feature("SSE4.1", BitSet(r.ecx, 19)), Feature("SSE4.2", BitSet(r.ecx, 20)),
      Feature("AVX", BitSet(r.ecx, 28)), Feature("FMA3", BitSet(r.ecx, 12)),
      Feature("PCLMUL", BitSet(r.ecx, 1)), Feature("AES", BitSet(r.ecx, 25))]
  {
    var fs := DecodeFeatures(StandardFlags, r);
    assert fs[0] == Feature("SSE", BitSet(r.edx, 25)) && fs[1] == Feature("SSE2", BitSet(r.edx, 26));
    assert fs[2] == Feature("SSE3", BitSet(r.ecx, 0)) && fs[3] == Feature("SSSE3", BitSet(r.ecx, 9));
    assert fs[4] == Feature("SSE4.1", BitSet(r.ecx, 19)) && fs[5] == Feature("SSE4.2", BitSet(r.ecx, 20));
    assert fs[6] == Feature("AVX", BitSet(r.ecx, 28)) && fs[7] == Feature("FMA3", BitSet(r.ecx, 12));
    assert fs[8] == Feature("PCLMUL", BitSet(r.ecx, 1)) && fs[9] == Feature("AES", BitSet(r.ecx, 25));
  }

  /** The extended flags decoded, written out. */
  lemma ExtendedListed(r: Regs)
    ensures DecodeFeatures(ExtendedFlags, r) == [
      Feature("x86-64 (LM)", BitSet(r.edx, 29)), Feature("RDTSCP", BitSet(r.ecx, 27)),
      Feature("SSE4a(AMD)", BitSet(r.ecx, 6)), Feature("MMXExt(AMD)", BitSet(r.edx, 22))]
  {
  }

  function StandardFeatures(cpuid: Cpuid): seq<Feature>
  {
    DecodeFeatures(StandardFlags, Query(cpuid, 1))
  }

  function ExtendedFeatures(cpuid: Cpuid): seq<Feature>
  {
    DecodeFeatures(ExtendedFlags, Query(cpuid, 0x8000_0001))
  }

  /** The registers with one bit of ECX or EDX inverted. */
  function FlipIn(r: Regs, reg: FlagRegister, bit: BitIndex): Regs
  {
    if reg == Ecx then r.(ecx := FlipBit(r.ecx, bit)) else r.(edx := FlipBit(r.edx, bit))
  }

  /** Inverting one bit of ECX or EDX leaves every other bit of either register as it was. */
  lemma FlipInKeepsOthers(r: Regs, reg: FlagRegister, bit: BitIndex, reg': FlagRegister, bit': BitIndex)
    requires reg != reg' || bit != bit'
    ensures BitSet(Select(reg', FlipIn(r, reg, bit)), bit') == BitSet(Select(reg', r), bit')
  {
    if reg == reg' {
      FlipBitKeepsOthers(Select(reg, r), bit, bit');
    }
  }

  /**
   * Each flag is exactly its own bit: inverting the bit of flag `i` inverts
   * that flag and leaves every other line of the list as it was.
   */
  lemma FlagIsItsBit(table: seq<FlagSpec>, r: Regs, i: nat)
    requires DistinctBits(table) && i < |table|
    ensures var r' := FlipIn(r, table[i].reg, table[i].bit);
      var before, after := DecodeFeatures(table, r), DecodeFeatures(table, r');
      && after[i].present != before[i].present
      && (forall j :: 0 <= j < |table| && j != i ==> after[j] == before[j])
  {
    var f := table[i];
    var r' := FlipIn(r, f.reg, f.bit);
    var before, after := DecodeFeatures(table, r), DecodeFeatures(table, r');
    forall j | 0 <= j < |table| && j != i
      ensures after[j] == before[j]
    {
      var g := table[j];
      assert g.reg != f.reg || g.bit != f.bit by {
        if i < j { assert table[i].reg != table[j].reg || table[i].bit != table[j].bit; }
      }
      FlipInKeepsOthers(r, f.reg, f.bit, g.reg, g.bit);
    }
  }

  /** A bit that no flag of the table tests has no effect on the list. */
  lemma OtherBitsIgnored(table: seq<FlagSpec>, r: Regs, reg: FlagRegister, bit: BitIndex)
    requires forall f <- table :: f.reg != reg || f.bit != bit
    ensures DecodeFeatures(table, FlipIn(r, reg, bit)) == DecodeFeatures(table, r)
  {
    var before, after := DecodeFeatures(table, r), DecodeFeatures(table, FlipIn(r, reg, bit));
    forall j | 0 <= j < |table|
      ensures after[j] == before[j]
    {
      var g := table[j];
      assert g in table;
      FlipInKeepsOthers(r, reg, bit, g.reg, g.bit);
    }
  }

  // -------------------------------------------------------------------------
  // Topology: physical cores
  // -------------------------------------------------------------------------

  /** EAX of leaf 0 held in a C `int`: compared signed. */
  function MaxBasic(cpuid: Cpuid): int
  {
    AsInt32(Query(cpuid, 0).eax)
  }

  /** Leaf 4 sub-leaf 0, EAX[31:26] + 1. */
  function IntelCores(r: Regs): (n: int)
    ensures 1 <= n <= 64
  {
    ((r.eax >> 26) as bv6) as int + 1
  }

  /** Leaf 0x80000008, ECX[7:0] + 1. */
  function AmdCores(r: Regs): (n: int)
    ensures 1 <= n <= 256
  {
    ((r.ecx & 0xFF) as bv8) as int + 1
  }

  /** The Intel test: the vendor contains "Intel" and the basic leaves reach leaf 4. */
  predicate IntelTest(vendor: string, maxBasic: int)
  {
    Contains(vendor, "Intel") && maxBasic >= 4
  }

  /** The AMD test: the vendor contains "AuthenticAMD" and the extended leaves reach 0x80000008. */
  predicate AmdTest(vendor: string, maxExt: bv32)
  {
    Contains(vendor, "AuthenticAMD") && maxExt >= 0x8000_0008
  }

  predicate IsIntel(cpuid: Cpuid)
  {
    IntelTest(VendorText(cpuid), MaxBasic(cpuid))
  }

  predicate IsAmd(cpuid: Cpuid)
  {
    AmdTest(VendorText(cpuid), MaxExtended(cpuid))
  }

  /**
   * The approximate physical core count. The default is the logical count
   * converted to a C `int`; the Intel test is tried before the AMD test.
   */
  function PhysicalCores(cpuid: Cpuid, logical: bv32): int
  {
    if IsIntel(cpuid) then IntelCores(cpuid(4, 0))
    else if IsAmd(cpuid) then AmdCores(Query(cpuid, 0x8000_0008))
    else AsInt32(logical)
  }

  /**
   * The three outcomes: an Intel count in 1..64, an AMD count in 1..256, or
   * the logical count (as an `int`) for a vendor matching neither test.
   */
  lemma PhysicalCoresCases(cpuid: Cpuid, logical: bv32)
    ensures var n := PhysicalCores(cpuid, logical);
      && (IsIntel(cpuid) ==> n == IntelCores(cpuid(4, 0)) && 1 <= n <= 64)
      && (!IsIntel(cpuid) && IsAmd(cpuid) ==> n == AmdCores(Query(cpuid, 0x8000_0008)) && 1 <= n <= 256)
      && (!IsIntel(cpuid) && !IsAmd(cpuid) ==> n == AsInt32(logical))
      && (logical < 0x8000_0000 && !IsIntel(cpuid) && !IsAmd(cpuid) ==> n >= 0)
  {
  }

  /**
   * A vendor of at most 12 bytes that contains "AuthenticAMD" is exactly
   * that string, so it cannot also contain "Intel": the order of the two
   * tests never decides anything.
   */
  lemma VendorTestsExclusive(v: string)
    requires |v| <= 12 && Contains(v, "AuthenticAMD")
    ensures v == "AuthenticAMD"
    ensures !Contains(v, "Intel")
  {
    var i :| 0 <= i <= |v| - 12 && OccursAt(v, "AuthenticAMD", i);
    assert v == v[i..i + 12];
    forall j | 0 <= j <= |v| - 5
      ensures !OccursAt(v, "Intel", j)
    {
      assert v[j..j + 5][0] == v[j];
    }
  }

  lemma IntelAndAmdExclusive(cpuid: Cpuid)
    ensures !(IsIntel(cpuid) && IsAmd(cpuid))
  {
    VendorIsNulTrimmed(cpuid);
    if Contains(VendorText(cpuid), "AuthenticAMD") {
      VendorTestsExclusive(VendorText(cpuid));
    }
  }

  // -------------------------------------------------------------------------
  // Leaf 4 / 0x8000001D: cache enumeration
  // -------------------------------------------------------------------------

  /** The enumeration leaf, or 0 when there is none. */
  function CacheLeaf(cpuid: Cpuid): bv32
  {
    if MaxBasic(cpuid) >= 4 then 4
    else if MaxExtended(cpuid) >= 0x8000_001D then 0x8000_001D
    else 0
  }

  /**
   * Leaf 4 whenever the basic leaves reach 4 (whatever the vendor), else
   * leaf 0x8000001D when the extended leaves reach it, else none; the
   * choice reads only the two maxima.
   */
  lemma CacheLeafChoice(cpuid: Cpuid, other: Cpuid)
    ensures CacheLeaf(cpuid) in {0, 4, 0x8000_001D}
    ensures CacheLeaf(cpuid) == 4 <==> MaxBasic(cpuid) >= 4
    ensures CacheLeaf(cpuid) == 0x8000_001D <==> MaxBasic(cpuid) < 4 && MaxExtended(cpuid) >= 0x8000_001D
    ensures MaxBasic(other) == MaxBasic(cpuid) && MaxExtended(other) == MaxExtended(cpuid)
        ==> CacheLeaf(other) == CacheLeaf(cpuid)
  {
  }

  datatype CacheKind = Data | Instruction | Unified | Unknown

  /**
   * One printed cache: level, type, size in KB (the value of the `unsigned`),
   * ways, line size (and the raw geometry).
   */
  datatype CacheEntry = CacheEntry(
    level: bv32, kind: CacheKind, sizeKB: nat,
    ways: bv32, partitions: bv32, lineSize: bv32, sets: bv32)

  /** EAX[4:0]: 0 means "no more caches". */
  function CacheTypeCode(r: Regs): bv32
  {
    r.eax & 0x1F
  }

  function KindOf(code: bv32): CacheKind
  {
    if code == 1 then Data
    else if code == 2 then Instruction
    else if code == 3 then Unified
    else Unknown
  }

  /** `a * b` in 32-bit `unsigned` arithmetic: the product modulo 2^32. */
  function MulU32(a: nat, b: nat): (p: nat)
    ensures p < 0x1_0000_0000
  {
    a * b % 0x1_0000_0000
  }

  /** Wrapping a factor before multiplying wraps the product the same way. */
  lemma MulWrapLeft(a: nat, b: nat)
    ensures MulU32(a % 0x1_0000_0000, b) == a * b % 0x1_0000_0000
  {
    var q := a / 0x1_0000_0000;
    var r := a % 0x1_0000_0000;
    assert a * b == r * b + (q * b) * 0x1_0000_0000 by {
      assert a == r + q * 0x1_0000_0000;
    }
  }

  /**
   * `(ways * partitions * lineSize * sets) / 1024` in 32-bit `unsigned`
   * arithmetic: each multiplication wraps modulo 2^32 and the division comes
   * last, so the result is the whole product, wrapped once, in whole KB
   * rounded down.
   */
  function SizeKB(ways: nat, partitions: nat, lineSize: nat, sets: nat): (kb: nat)
    ensures var bytes := ways * partitions * lineSize * sets % 0x1_0000_0000;
      kb * 1024 <= bytes < kb * 1024 + 1024
    ensures kb < 0x40_0000
  {
    MulWrapLeft(ways * partitions, lineSize);
    MulWrapLeft(ways * partitions * lineSize, sets);
    MulU32(MulU32(MulU32(ways, partitions), lineSize), sets) / 1024
  }

  /**
   * One sub-leaf decoded. All arithmetic is on 32-bit unsigned values; the
   * size is the product of the four geometry fields, wrapped modulo 2^32,
   * in whole KB.
   */
  function DecodeCache(r: Regs): (e: CacheEntry)
    ensures e.level < 8
    ensures 1 <= e.ways <= 1024 && 1 <= e.partitions <= 1024 && 1 <= e.lineSize <= 4096
    ensures var bytes := e.ways as int * e.partitions as int * e.lineSize as int * e.sets as int % 0x1_0000_0000;
      e.sizeKB * 1024 <= bytes < e.sizeKB * 1024 + 1024
    ensures e.sizeKB < 0x40_0000
  {
    var ways := ((r.ebx >> 22) & 0x3FF) + 1;
    var partitions := ((r.ebx >> 12) & 0x3FF) + 1;
    var lineSize := (r.ebx & 0xFFF) + 1;
    var sets := r.ecx + 1;
    var kb := SizeKB(ways as int, partitions as int, lineSize as int, sets as int);
    CacheEntry((r.eax >> 5) & 0x7, KindOf(CacheTypeCode(r)), kb, ways, partitions, lineSize, sets)
  }

  /**
   * Whenever the byte count ways × partitions × line size × sets fits in 32
   * bits, as it does for every real cache, the size is that count in whole
   * KB; only a larger count wraps.
   */
  lemma CacheSizeExact(r: Regs)
    ensures var e := DecodeCache(r);
      var bytes := e.ways as int * e.partitions as int * e.lineSize as int * e.sets as int;
      bytes < 0x1_0000_0000 ==> e.sizeKB == bytes / 1024
  {
    var e := DecodeCache(r);
    var bytes := e.ways as int * e.partitions as int * e.lineSize as int * e.sets as int;
    if bytes < 0x1_0000_0000 {
      ProductNonnegative(e.ways as int, e.partitions as int, e.lineSize as int, e.sets as int);
      WholeKB(e.sizeKB, bytes);
    }
  }

  lemma ProductNonnegative(a: nat, b: nat, c: nat, d: nat)
    ensures a * b * c * d >= 0
  {
    assert a * b >= 0;
    assert a * b * c >= 0;
  }

  /** A count below 2^32 is its own wrap, so whole KB of the wrap are whole KB of the count. */
  lemma WholeKB(kb: nat, bytes: int)
    requires 0 <= bytes < 0x1_0000_0000
    requires kb * 1024 <= bytes % 0x1_0000_0000 < kb * 1024 + 1024
    ensures kb == bytes / 1024
  {
  }

  /**
   * Two sub-leaves decoded: an 8-way level 1 data cache of 64 sets of 64-byte
   * lines is 32 KB; the largest geometry EBX can describe, with one set, is
   * 2^32 bytes, which wraps to 0 KB.
   */
  lemma CacheSizeExamples()
    ensures DecodeCache(Regs(0x121, 0x01C0_003F, 0x3F, 0)) == CacheEntry(1, Data, 32, 8, 1, 64, 64)
    ensures DecodeCache(Regs(0x121, 0xFFFF_FFFF, 0, 0)).sizeKB == 0
  {
    var l1 := DecodeCache(Regs(0x121, 0x01C0_003F, 0x3F, 0));
    assert l1.level == 1 && l1.kind == Data;
    assert l1.ways == 8 && l1.partitions == 1 && l1.lineSize == 64 && l1.sets == 64;
    WholeKB(l1.sizeKB, 8 * 1 * 64 * 64);
    var widest := DecodeCache(Regs(0x121, 0xFFFF_FFFF, 0, 0));
    assert widest.ways == 1024 && widest.partitions == 1024 && widest.lineSize == 4096 && widest.sets == 1;
    assert 1024 * 1024 * 4096 * 1 % 0x1_0000_0000 == 0;
  }

  /**
   * The decoded geometry loses nothing: ways, partitions and line size
   * (each less one) put back in their fields give EBX again, sets less one
   * gives ECX, and the level and type code are EAX[7:5] and EAX[4:0].
   */
  lemma DecodeCacheInverse(r: Regs)
    ensures var e := DecodeCache(r);
      && ((e.ways - 1) << 22) | ((e.partitions - 1) << 12) | (e.lineSize - 1) == r.ebx
      && e.sets - 1 == r.ecx
      && (e.level << 5) == r.eax & 0xE0
      && (e.kind == Data <==> CacheTypeCode(r) == 1)
      && (e.kind == Instruction <==> CacheTypeCode(r) == 2)
      && (e.kind == Unified <==> CacheTypeCode(r) == 3)
  {
  }

  /**
   * The registers of the sub-leaves the scan lists, from sub-leaf `sub`: up
   * to sub-leaf 31, stopping at the first type code 0.
   */
  function CacheScan(cpuid: Cpuid, leaf: bv32, sub: nat): seq<Regs>
    decreases 32 - sub
  {
    if sub >= 32 then []
    else
      var r := cpuid(leaf, sub);
      if CacheTypeCode(r) == 0 then [] else [r] + CacheScan(cpuid, leaf, sub + 1)
  }

  /** A sub-leaf with a nonzero type code is listed, and the scan goes on after it. */
  lemma CacheScanStep(cpuid: Cpuid, leaf: bv32, sub: nat, listed: seq<Regs>)
    requires sub < 32 && CacheTypeCode(cpuid(leaf, sub)) != 0
    ensures listed + CacheScan(cpuid, leaf, sub) == (listed + [cpuid(leaf, sub)]) + CacheScan(cpuid, leaf, sub + 1)
  {
  }

  /** The scan stops at sub-leaf 32 or at a type code of 0. */
  lemma CacheScanStop(cpuid: Cpuid, leaf: bv32, sub: nat, listed: seq<Regs>)
    requires sub >= 32 || CacheTypeCode(cpuid(leaf, sub)) == 0
    ensures listed + CacheScan(cpuid, leaf, sub) == listed
  {
  }

  /** The sub-leaves listed, or None for "No advanced cache enumeration." */
  function Caches(cpuid: Cpuid): Option<seq<Regs>>
  {
    var leaf := CacheLeaf(cpuid);
    if leaf == 0 then None else Some(CacheScan(cpuid, leaf, 0))
  }

  /**
   * The scan from `sub` lists sub-leaves sub, sub+1, ... in ascending order,
   * each with a nonzero type code, never past sub-leaf 31, and when it ends
   * early it ends at a sub-leaf whose type code is 0.
   */
  lemma {:induction false} CacheScanFrom(cpuid: Cpuid, leaf: bv32, sub: nat)
    requires sub <= 32
    ensures var rs := CacheScan(cpuid, leaf, sub);
      && sub + |rs| <= 32
      && (forall i :: 0 <= i < |rs| ==> rs[i] == cpuid(leaf, sub + i) && CacheTypeCode(rs[i]) != 0)
      && (sub + |rs| < 32 ==> CacheTypeCode(cpuid(leaf, sub + |rs|)) == 0)
    decreases 32 - sub
  {
    if sub < 32 && CacheTypeCode(cpuid(leaf, sub)) != 0 {
      CacheScanFrom(cpuid, leaf, sub + 1);
      var rs := CacheScan(cpuid, leaf, sub);
      var rest := CacheScan(cpuid, leaf, sub + 1);
      forall i | 0 <= i < |rs|
        ensures rs[i] == cpuid(leaf, sub + i)
      {
        if i > 0 {
          assert rs[i] == rest[i - 1];
          assert (sub + 1) + (i - 1) == sub + i;
        }
      }
    }
  }

  /**
   * Conversely, a run of sub-leaves from `sub` with nonzero type codes that
   * ends at sub-leaf 32 or at a type code of 0 is exactly what the scan
   * from `sub` lists.
   */
  lemma {:induction false} CacheScanUnique(cpuid: Cpuid, leaf: bv32, sub: nat, rs: seq<Regs>)
    requires sub + |rs| <= 32
    requires forall i :: 0 <= i < |rs| ==> rs[i] == cpuid(leaf, sub + i) && CacheTypeCode(rs[i]) != 0
    requires sub + |rs| < 32 ==> CacheTypeCode(cpuid(leaf, sub + |rs|)) == 0
    ensures rs == CacheScan(cpuid, leaf, sub)
    decreases 32 - sub
  {
    if rs != [] {
      assert rs[0] == cpuid(leaf, sub + 0);
      forall i | 0 <= i < |rs[1..]|
        ensures rs[1..][i] == cpuid(leaf, (sub + 1) + i) && CacheTypeCode(rs[1..][i]) != 0
      {
        assert rs[1..][i] == rs[i + 1];
        assert sub + (i + 1) == (sub + 1) + i;
      }
      CacheScanUnique(cpuid, leaf, sub + 1, rs[1..]);
      assert rs == [rs[0]] + rs[1..];
    }
  }

  /**
   * The listed caches are exactly the longest run of sub-leaves 0, 1, ...
   * with a nonzero type code, capped at 32 entries.
   */
  lemma CacheEnumeration(cpuid: Cpuid)
    requires CacheLeaf(cpuid) != 0
    ensures var leaf, rs := CacheLeaf(cpuid), Caches(cpuid).value;
      && |rs| <= 32
      && (forall i :: 0 <= i < |rs| ==> rs[i] == cpuid(leaf, i) && CacheTypeCode(rs[i]) != 0)
      && (|rs| < 32 ==> CacheTypeCode(cpuid(leaf, |rs|)) == 0)
  {
    CacheScanFrom(cpuid, CacheLeaf(cpuid), 0);
  }
}
