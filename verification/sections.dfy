/**
 * The report sections both front ends write in the same way: the same
 * queries, the same tests and the same lines, in the same order. Where they
 * differ the difference is a parameter: the two headings above the feature
 * flags, the printer that makes one flag's line (the window's `PrintFeat`
 * lambda, the console's `PrintFeatureFlag`) and the line made for one cache.
 *
 * Each `After...` function states what the stream holds once a section has
 * been written after the lines `pre`.
 */
module Sections {
  import opened Registers
  import opened Text
  import opened Decoder
  import opened Formats
  import opened Streams
  import Buffers
  import Probe

  /** What a front end writes for one flag, given its name and whether its bit is set. */
  type FlagPrinter = (string, bool) -> string

  // -------------------------------------------------------------------------
  // The stream after each section
  // -------------------------------------------------------------------------

  /** Vendor, signature and brand. */
  function AfterHeader(pre: seq<string>, cpuid: Cpuid): seq<string>
  {
    pre + [VendorLine(cpuid)] + [SignatureLine(SignatureOf(cpuid))] + [BrandLine(Brand(cpuid))]
  }

  /** The flag lines of decoded features, in order. */
  function FlagLines(fs: seq<Feature>, flagLine: FlagPrinter): (ls: seq<string>)
    ensures |ls| == |fs|
  {
    seq(|fs|, i requires 0 <= i < |fs| => flagLine(fs[i].name, fs[i].present))
  }

  /** An empty line, the heading, then the leaf 1 flags in the order the code tests them. */
  function AfterStandard(pre: seq<string>, heading: string, std: Regs, flagLine: FlagPrinter): seq<string>
  {
    pre + [""] + [heading]
      + [flagLine("SSE", BitSet(std.edx, 25))] + [flagLine("SSE2", BitSet(std.edx, 26))]
      + [flagLine("SSE3", BitSet(std.ecx, 0))] + [flagLine("SSSE3", BitSet(std.ecx, 9))]
      + [flagLine("SSE4.1", BitSet(std.ecx, 19))] + [flagLine("SSE4.2", BitSet(std.ecx, 20))]
      + [flagLine("AVX", BitSet(std.ecx, 28))] + [flagLine("FMA3", BitSet(std.ecx, 12))]
      + [flagLine("PCLMUL", BitSet(std.ecx, 1))] + [flagLine("AES", BitSet(std.ecx, 25))]
  }

  /** An empty line, the heading, then the leaf 0x80000001 flags in the order the code tests them. */
  function AfterExtended(pre: seq<string>, heading: string, ext: Regs, flagLine: FlagPrinter): seq<string>
  {
    pre + [""] + [heading]
      + [flagLine("x86-64 (LM)", BitSet(ext.edx, 29))] + [flagLine("RDTSCP", BitSet(ext.ecx, 27))]
      + [flagLine("SSE4a(AMD)", BitSet(ext.ecx, 6))] + [flagLine("MMXExt(AMD)", BitSet(ext.edx, 22))]
  }

  /** An empty line, the logical count, then the physical-core estimate. */
  function AfterCores(pre: seq<string>, cpuid: Cpuid, logicalCount: bv32): seq<string>
  {
    pre + [""] + [LogicalLine(logicalCount)] + [CoresLine(PhysicalCores(cpuid, logicalCount))]
  }

  /** An empty line, then the frequency, printed as `freq`. */
  function AfterFrequency(pre: seq<string>, freq: string): seq<string>
  {
    pre + [""] + [FrequencyLine(freq)]
  }

  // -------------------------------------------------------------------------
  // What the sections say
  // -------------------------------------------------------------------------

  /** The flag lines of ten features, written out. */
  lemma TenFlagLines(flagLine: FlagPrinter, f0: Feature, f1: Feature, f2: Feature, f3: Feature,
                     f4: Feature, f5: Feature, f6: Feature, f7: Feature, f8: Feature, f9: Feature)
    ensures FlagLines([f0, f1, f2, f3, f4, f5, f6, f7, f8, f9], flagLine) == [
      flagLine(f0.name, f0.present), flagLine(f1.name, f1.present), flagLine(f2.name, f2.present),
      flagLine(f3.name, f3.present), flagLine(f4.name, f4.present), flagLine(f5.name, f5.present),
      flagLine(f6.name, f6.present), flagLine(f7.name, f7.present), flagLine(f8.name, f8.present),
      flagLine(f9.name, f9.present)]
  {
    var fs := [f0, f1, f2, f3, f4, f5, f6, f7, f8, f9];
    var ls := FlagLines(fs, flagLine);
    assert ls[0] == flagLine(f0.name, f0.present) && ls[1] == flagLine(f1.name, f1.present);
    assert ls[2] == flagLine(f2.name, f2.present) && ls[3] == flagLine(f3.name, f3.present);
    assert ls[4] == flagLine(f4.name, f4.present) && ls[5] == flagLine(f5.name, f5.present);
    assert ls[6] == flagLine(f6.name, f6.present) && ls[7] == flagLine(f7.name, f7.present);
    assert ls[8] == flagLine(f8.name, f8.present) && ls[9] == flagLine(f9.name, f9.present);
  }

  /**
   * The ten standard flag lines are the decoded standard flags, in table
   * order: each is the printer's line for its flag's name and for whether
   * its bit is set.
   */
  lemma StandardSection(pre: seq<string>, heading: string, std: Regs, flagLine: FlagPrinter)
    ensures AfterStandard(pre, heading, std, flagLine)
      == pre + ["", heading] + FlagLines(DecodeFeatures(StandardFlags, std), flagLine)
  {
    StandardListed(std);
    TenFlagLines(flagLine, Feature("SSE", BitSet(std.edx, 25)), Feature("SSE2", BitSet(std.edx, 26)),
      Feature("SSE3", BitSet(std.ecx, 0)), Feature("SSSE3", BitSet(std.ecx, 9)),
      Feature("SSE4.1", BitSet(std.ecx, 19)), Feature("SSE4.2", BitSet(std.ecx, 20)),
      Feature("AVX", BitSet(std.ecx, 28)), Feature("FMA3", BitSet(std.ecx, 12)),
      Feature("PCLMUL", BitSet(std.ecx, 1)), Feature("AES", BitSet(std.ecx, 25)));
    TwelveLines(pre, "", heading,
      flagLine("SSE", BitSet(std.edx, 25)), flagLine("SSE2", BitSet(std.edx, 26)),
      flagLine("SSE3", BitSet(std.ecx, 0)), flagLine("SSSE3", BitSet(std.ecx, 9)),
      flagLine("SSE4.1", BitSet(std.ecx, 19)), flagLine("SSE4.2", BitSet(std.ecx, 20)),
      flagLine("AVX", BitSet(std.ecx, 28)), flagLine("FMA3", BitSet(std.ecx, 12)),
      flagLine("PCLMUL", BitSet(std.ecx, 1)), flagLine("AES", BitSet(std.ecx, 25)));
  }

  /** The four extended flag lines are the decoded extended flags, in table order. */
  lemma ExtendedSection(pre: seq<string>, heading: string, ext: Regs, flagLine: FlagPrinter)
    ensures AfterExtended(pre, heading, ext, flagLine)
      == pre + ["", heading] + FlagLines(DecodeFeatures(ExtendedFlags, ext), flagLine)
  {
    ExtendedListed(ext);
  }

  // -------------------------------------------------------------------------
  // The code
  // -------------------------------------------------------------------------

  /** The vendor block: the vendor buffer filled from leaf 0 and written. */
  method WriteVendor(oss: TextStream, cpuid: Cpuid)
    modifies oss
    ensures oss.lines == old(oss.lines) + [VendorLine(cpuid)]
  {
    var vendor := Buffers.ReadVendor(Query(cpuid, 0));
    oss.WriteLine("CPU Vendor: " + Chars(vendor));
  }

  /** The signature block: the signature decoded from leaf 1 and written. */
  method WriteSignature(oss: TextStream, cpuid: Cpuid)
    modifies oss
    ensures oss.lines == old(oss.lines) + [SignatureLine(SignatureOf(cpuid))]
  {
    var signature := Probe.ReadSignature(cpuid);
    oss.WriteLine(SignatureLine(signature));
  }

  /**
   * The brand block: the highest extended leaf read from leaf 0x80000000, then the
   * brand when it reaches 0x80000004, else "<Not available>". The highest
   * extended leaf is kept for the later blocks.
   */
  method WriteBrand(oss: TextStream, cpuid: Cpuid) returns (maxExt: bv32)
    modifies oss
    ensures maxExt == MaxExtended(cpuid)
    ensures oss.lines == old(oss.lines) + [BrandLine(Brand(cpuid))]
  {
    maxExt := Query(cpuid, 0x8000_0000).eax;
    if maxExt >= 0x8000_0004 {
      var brand := Buffers.ReadBrand(cpuid);
      oss.WriteLine("CPU Brand: " + Chars(brand));
    } else {
      oss.WriteLine("CPU Brand: <Not available>");
    }
  }

  /** The vendor, signature and brand blocks. */
  method WriteHeader(oss: TextStream, cpuid: Cpuid) returns (maxExt: bv32)
    modifies oss
    ensures maxExt == MaxExtended(cpuid)
    ensures oss.lines == AfterHeader(old(oss.lines), cpuid)
  {
    WriteVendor(oss, cpuid);
    WriteSignature(oss, cpuid);
    maxExt := WriteBrand(oss, cpuid);
  }

  /** Leaf 1 is read; the heading and the ten standard flag lines are written. */
  method WriteStandardFlags(oss: TextStream, cpuid: Cpuid, heading: string, flagLine: FlagPrinter)
    modifies oss
    ensures oss.lines == AfterStandard(old(oss.lines), heading, Query(cpuid, 1), flagLine)
  {
    var cpuInfo := Query(cpuid, 1);
    var stdECX, stdEDX := cpuInfo.ecx, cpuInfo.edx;
    oss.WriteLine("");
    oss.WriteLine(heading);
    oss.WriteLine(flagLine("SSE", BitSet(stdEDX, 25)));
    oss.WriteLine(flagLine("SSE2", BitSet(stdEDX, 26)));
    oss.WriteLine(flagLine("SSE3", BitSet(stdECX, 0)));
    oss.WriteLine(flagLine("SSSE3", BitSet(stdECX, 9)));
    oss.WriteLine(flagLine("SSE4.1", BitSet(stdECX, 19)));
    oss.WriteLine(flagLine("SSE4.2", BitSet(stdECX, 20)));
    oss.WriteLine(flagLine("AVX", BitSet(stdECX, 28)));
    oss.WriteLine(flagLine("FMA3", BitSet(stdECX, 12)));
    oss.WriteLine(flagLine("PCLMUL", BitSet(stdECX, 1)));
    oss.WriteLine(flagLine("AES", BitSet(stdECX, 25)));
  }

  /** Leaf 0x80000001 is read; the heading and the four extended flag lines are written. */
  method WriteExtendedFlags(oss: TextStream, cpuid: Cpuid, heading: string, flagLine: FlagPrinter)
    modifies oss
    ensures oss.lines == AfterExtended(old(oss.lines), heading, Query(cpuid, 0x8000_0001), flagLine)
  {
    var cpuInfo := Query(cpuid, 0x8000_0001);
    var extECX, extEDX := cpuInfo.ecx, cpuInfo.edx;
    oss.WriteLine("");
    oss.WriteLine(heading);
    oss.WriteLine(flagLine("x86-64 (LM)", BitSet(extEDX, 29)));
    oss.WriteLine(flagLine("RDTSCP", BitSet(extECX, 27)));
    oss.WriteLine(flagLine("SSE4a(AMD)", BitSet(extECX, 6)));
    oss.WriteLine(flagLine("MMXExt(AMD)", BitSet(extEDX, 22)));
  }

  /** The standard flags under one heading, then the extended flags under another. */
  method WriteFeatureFlags(oss: TextStream, cpuid: Cpuid, standardHeading: string,
                           extendedHeading: string, flagLine: FlagPrinter)
    modifies oss
    ensures oss.lines == AfterExtended(
      AfterStandard(old(oss.lines), standardHeading, Query(cpuid, 1), flagLine),
      extendedHeading, Query(cpuid, 0x8000_0001), flagLine)
  {
    WriteStandardFlags(oss, cpuid, standardHeading, flagLine);
    WriteExtendedFlags(oss, cpuid, extendedHeading, flagLine);
  }

  /**
   * The physical-core estimate (which reads the vendor again), then the
   * logical count from `GetSystemInfo` and the estimate; the highest basic
   * leaf read here is returned for the cache section.
   */
  method WriteCores(oss: TextStream, cpuid: Cpuid, logicalCount: bv32) returns (maxBasic: int)
    modifies oss
    ensures maxBasic == MaxBasic(cpuid)
    ensures oss.lines == AfterCores(old(oss.lines), cpuid, logicalCount)
  {
    var physicalCores := Probe.ApproxPhysicalCores(cpuid, logicalCount);
    maxBasic := AsInt32(Query(cpuid, 0).eax);
    oss.WriteLine("");
    oss.WriteLine(LogicalLine(logicalCount));
    oss.WriteLine(CoresLine(physicalCores));
  }

  /**
   * The cache enumeration loop: sub-leaves 0 to 31 of `leaf` are read in
   * turn, the loop stops at the first whose type code is 0, and each one
   * before it gets the line `line` makes of it.
   */
  method WriteCacheLines(oss: TextStream, cpuid: Cpuid, leaf: bv32, line: Regs -> string)
    modifies oss
    ensures oss.lines == AfterEach(old(oss.lines), CacheScan(cpuid, leaf, 0), line)
  {
    ghost var start := oss.lines;
    ghost var listed: seq<Regs> := [];
    var subLeaf := 0;
    while subLeaf < 32
      invariant 0 <= subLeaf <= 32
      invariant listed + CacheScan(cpuid, leaf, subLeaf) == CacheScan(cpuid, leaf, 0)
      invariant oss.lines == AfterEach(start, listed, line)
    {
      var cpuInfo := cpuid(leaf, subLeaf);
      var cacheType := cpuInfo.eax & 0x1F;
      if cacheType == 0 {
        CacheScanStop(cpuid, leaf, subLeaf, listed);
        break;
      }
      CacheScanStep(cpuid, leaf, subLeaf, listed);
      oss.WriteLine(line(cpuInfo));
      AfterEachSnoc(start, listed, cpuInfo, line);
      listed := listed + [cpuInfo];
      subLeaf := subLeaf + 1;
    }
    if subLeaf == 32 {
      CacheScanStop(cpuid, leaf, subLeaf, listed);
    }
  }
}
