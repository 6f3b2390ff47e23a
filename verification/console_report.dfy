/**
 * The console front end: `main` prints a banner, then calls one function per
 * section, each printing its lines with `printf` (every line ended by "\n"),
 * then the frequency and a closing rule. Flags are printed by
 * `PrintFeatureFlag` with the name left-justified in eight columns; caches
 * are listed under a heading that names the enumeration leaf in hex.
 */
module ConsoleReport {
  import opened Registers
  import opened Text
  import opened Decoder
  import opened Formats
  import opened Streams
  import opened Sections

  const LF: string := "\n"

  const Banner: string := "===== CPU Information Utility ====="
  const Rule: string := "==================================="
  const StandardHeading: string := "Standard Feature Flags (CPUID.1):"
  const ExtendedHeading: string := "Extended Feature Flags (CPUID.0x80000001):"
  const CacheHeading: string := "Cache Information:"
  const NoEnumeration: string := "  No advanced cache enumeration."

  // -------------------------------------------------------------------------
  // The lines
  // -------------------------------------------------------------------------

  /** What `PrintFeatureFlag` prints: two spaces, the name padded to eight columns, ": ", "Yes" or "No". */
  function FlagLine(name: string, isSet: bool): string
  {
    "  " + PadRight(name, 8) + ": " + YesNo(isSet)
  }

  /**
   * The layout of a flag line: the indent, the name, spaces up to column
   * 10 (or none when the name is eight characters or longer, which is never
   * cut), the colon, and the answer. Names of up to eight characters thus
   * all put their colon in column 10.
   */
  lemma FlagLineLayout(name: string, isSet: bool)
    ensures var line := FlagLine(name, isSet);
      var colon := if |name| < 8 then 10 else 2 + |name|;
      && |line| == colon + 2 + |YesNo(isSet)|
      && line[..2] == "  "
      && line[2..2 + |name|] == name
      && (forall i :: 2 + |name| <= i < colon ==> line[i] == ' ')
      && line[colon..colon + 2] == ": "
      && line[colon + 2..] == YesNo(isSet)
  {
    var padded := PadRight(name, 8);
    var line := FlagLine(name, isSet);
    assert line == "  " + padded + ": " + YesNo(isSet);
    assert line[2..2 + |padded|] == padded;
    assert padded[..|name|] == name;
  }

  /** The line for one listed cache sub-leaf, indented by two spaces. */
  function CacheLine(r: Regs): string
  {
    "  " + CacheText(DecodeCache(r))
  }

  /** `"Cache Information (CPUID leaf 0x%x):"`. */
  function LeafHeading(leaf: bv32): string
  {
    "Cache Information (CPUID leaf 0x" + Hex(AsUInt32(leaf)) + "):"
  }

  /** `%x` of 0x8000001D, digit by digit. */
  lemma AmdLeafHex()
    ensures Hex(0x8000_001D) == "8000001d"
  {
    assert Numeral(0x8, 16) == "8";
    assert Numeral(0x80, 16) == "80";
    assert Numeral(0x800, 16) == "800";
    assert Numeral(0x8000, 16) == "8000";
    assert Numeral(0x8_0000, 16) == "80000";
    assert Numeral(0x80_0000, 16) == "800000";
    assert Numeral(0x800_0001, 16) == "8000001";
  }

  /** The two leaves the heading can name, as `%x` prints them. */
  lemma LeafHeadings()
    ensures LeafHeading(4) == "Cache Information (CPUID leaf 0x4):"
    ensures LeafHeading(0x8000_001D) == "Cache Information (CPUID leaf 0x8000001d):"
  {
    assert AsUInt32(4) == 4;
    assert AsUInt32(0x8000_001D) == 0x8000_001D;
    AmdLeafHex();
  }

  // -------------------------------------------------------------------------
  // The output
  // -------------------------------------------------------------------------

  /** The banner and the empty line after it. */
  function AfterBanner(pre: seq<string>): seq<string>
  {
    pre + [Banner] + [""]
  }

  /**
   * The cache section: without an enumeration leaf, the plain heading and
   * the "no enumeration" line; with one, the heading naming the leaf and a
   * line per listed sub-leaf.
   */
  function AfterCacheInfo(pre: seq<string>, cpuid: Cpuid): seq<string>
  {
    match Caches(cpuid)
    case None => pre + [""] + [CacheHeading] + [NoEnumeration]
    case Some(rs) => AfterEach(pre + [""] + [LeafHeading(CacheLeaf(cpuid))], rs, CacheLine)
  }

  /** The empty line and the rule that close the output. */
  function AfterRule(pre: seq<string>): seq<string>
  {
    pre + [""] + [Rule]
  }

  /** The lines `main` prints, given the logical processor count and the printed frequency. */
  function OutputLines(cpuid: Cpuid, logicalCount: bv32, freq: string): seq<string>
  {
    var header := AfterHeader(AfterBanner([]), cpuid);
    var standard := AfterStandard(header, StandardHeading, Query(cpuid, 1), FlagLine);
    var features := AfterExtended(standard, ExtendedHeading, Query(cpuid, 0x8000_0001), FlagLine);
    AfterRule(AfterFrequency(AfterCacheInfo(AfterCores(features, cpuid, logicalCount), cpuid), freq))
  }

  /** The text on standard output: every line followed by "\n". */
  function Output(cpuid: Cpuid, logicalCount: bv32, freq: string): string
  {
    Render(OutputLines(cpuid, logicalCount, freq), LF)
  }

  /** The cache heading: the plain one without an enumeration leaf, else the one naming the leaf. */
  function CacheInfoHeading(cpuid: Cpuid): string
  {
    if Caches(cpuid).None? then CacheHeading else LeafHeading(CacheLeaf(cpuid))
  }

  /** The lines under the cache heading: one per listed cache, or the "no enumeration" line. */
  function CacheBody(cpuid: Cpuid): seq<string>
  {
    match Caches(cpuid)
    case None => [NoEnumeration]
    case Some(rs) => Each(rs, CacheLine)
  }

  /** The cache section is its heading followed by the cache body. */
  lemma CacheInfoSection(pre: seq<string>, cpuid: Cpuid)
    ensures AfterCacheInfo(pre, cpuid) == pre + ["", CacheInfoHeading(cpuid)] + CacheBody(cpuid)
  {
    TwoLines(pre, "", CacheInfoHeading(cpuid));
    match Caches(cpuid)
    case None =>
    case Some(rs) => AfterEachInOrder(pre + [""] + [CacheInfoHeading(cpuid)], rs, CacheLine);
  }

  /**
   * The output, section by section: the banner; the vendor, signature and
   * brand lines; the standard and the extended flags, each under its
   * heading and each the `PrintFeatureFlag` line of the decoded flag; the
   * two core counts; the caches; the frequency; and the closing rule. Every
   * section after the banner opens with an empty line.
   */
  lemma OutputLayout(cpuid: Cpuid, logicalCount: bv32, freq: string)
    ensures OutputLines(cpuid, logicalCount, freq)
      == [Banner, ""]
        + [VendorLine(cpuid), SignatureLine(SignatureOf(cpuid)), BrandLine(Brand(cpuid))]
        + ["", StandardHeading] + FlagLines(StandardFeatures(cpuid), FlagLine)
        + ["", ExtendedHeading] + FlagLines(ExtendedFeatures(cpuid), FlagLine)
        + ["", LogicalLine(logicalCount), CoresLine(PhysicalCores(cpuid, logicalCount))]
        + ["", CacheInfoHeading(cpuid)] + CacheBody(cpuid)
        + ["", FrequencyLine(freq)]
        + ["", Rule]
  {
    var banner := AfterBanner([]);
    TwoLines([], Banner, "");
    assert banner == [Banner, ""];
    ThreeLines(banner, VendorLine(cpuid), SignatureLine(SignatureOf(cpuid)), BrandLine(Brand(cpuid)));
    var header := AfterHeader(banner, cpuid);
    StandardSection(header, StandardHeading, Query(cpuid, 1), FlagLine);
    var standard := AfterStandard(header, StandardHeading, Query(cpuid, 1), FlagLine);
    ExtendedSection(standard, ExtendedHeading, Query(cpuid, 0x8000_0001), FlagLine);
    var features := AfterExtended(standard, ExtendedHeading, Query(cpuid, 0x8000_0001), FlagLine);
    ThreeLines(features, "", LogicalLine(logicalCount), CoresLine(PhysicalCores(cpuid, logicalCount)));
    var cores := AfterCores(features, cpuid, logicalCount);
    CacheInfoSection(cores, cpuid);
    var frequency := AfterFrequency(AfterCacheInfo(cores, cpuid), freq);
    TwoLines(AfterCacheInfo(cores, cpuid), "", FrequencyLine(freq));
    TwoLines(frequency, "", Rule);
  }

  // -------------------------------------------------------------------------
  // The code
  // -------------------------------------------------------------------------

  /** Vendor, signature and brand. */
  method ShowBasicCPUInfo(out: TextStream, cpuid: Cpuid)
    modifies out
    ensures out.lines == AfterHeader(old(out.lines), cpuid)
  {
    var maxExt := WriteHeader(out, cpuid);
  }

  /** The standard and extended flags, each under its heading. */
  method ShowFeatureFlags(out: TextStream, cpuid: Cpuid)
    modifies out
    ensures out.lines == AfterExtended(
      AfterStandard(old(out.lines), StandardHeading, Query(cpuid, 1), FlagLine),
      ExtendedHeading, Query(cpuid, 0x8000_0001), FlagLine)
  {
    WriteFeatureFlags(out, cpuid, StandardHeading, ExtendedHeading, FlagLine);
  }

  /** The logical count from `GetSystemInfo` and the physical-core estimate. */
  method ShowCoreAndThreadCount(out: TextStream, cpuid: Cpuid, logicalCount: bv32)
    modifies out
    ensures out.lines == AfterCores(old(out.lines), cpuid, logicalCount)
  {
    var maxBasic := WriteCores(out, cpuid, logicalCount);
  }

  /**
   * Reads both maxima again, chooses the enumeration leaf, and either
   * prints the "no enumeration" lines and returns early, or prints the
   * heading naming the leaf and runs the enumeration loop.
   */
  method ShowCacheInfo(out: TextStream, cpuid: Cpuid)
    modifies out
    ensures out.lines == AfterCacheInfo(old(out.lines), cpuid)
  {
    var maxBasic := AsInt32(Query(cpuid, 0).eax);
    var maxExt := Query(cpuid, 0x8000_0000).eax;

    var leafCache: bv32 := 0;
    if maxBasic >= 4 {
      leafCache := 4;
    } else if maxExt >= 0x8000_001D {
      leafCache := 0x8000_001D;
    }
    assert CacheLeaf(cpuid) == leafCache;

    if leafCache == 0 {
      out.WriteLine("");
      out.WriteLine(CacheHeading);
      out.WriteLine(NoEnumeration);
      return;
    }

    assert Caches(cpuid) == Some(CacheScan(cpuid, leafCache, 0));
    out.WriteLine("");
    out.WriteLine(LeafHeading(leafCache));
    WriteCacheLines(out, cpuid, leafCache, CacheLine);
  }

  /**
   * `main`: the banner, the four sections, the frequency and the closing
   * rule, on a fresh standard output; it returns 0.
   */
  method Run(cpuid: Cpuid, logicalCount: bv32, freq: string) returns (exitCode: int, output: string)
    ensures exitCode == 0
    ensures output == Output(cpuid, logicalCount, freq)
  {
    var out := new TextStream(LF);
    out.WriteLine(Banner);
    out.WriteLine("");
    ShowBasicCPUInfo(out, cpuid);
    ShowFeatureFlags(out, cpuid);
    ShowCoreAndThreadCount(out, cpuid, logicalCount);
    ShowCacheInfo(out, cpuid);
    out.WriteLine("");
    out.WriteLine(FrequencyLine(freq));
    out.WriteLine("");
    out.WriteLine(Rule);
    output := out.Str();
    exitCode := 0;
  }
}
