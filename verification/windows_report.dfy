/**
 * The window front end: `GetCPUInformation` builds one report in an
 * `ostringstream`, section by section, every line ended by "\r\n", and the
 * window shows it. Flags are printed by the `PrintFeat` lambda, indented by
 * four spaces; caches are listed under a plain "Cache Information:" heading.
 */
module WindowsReport {
  import opened Registers
  import opened Text
  import opened Decoder
  import opened Formats
  import opened Streams
  import opened Sections

  const CRLF: string := "\r\n"

  const StandardHeading: string := "Standard Features (CPUID.1):"
  const ExtendedHeading: string := "Extended Features (CPUID.0x80000001):"
  const CacheHeading: string := "Cache Information:"
  const NoEnumeration: string := "    No advanced cache enumeration."

  // -------------------------------------------------------------------------
  // The lines
  // -------------------------------------------------------------------------

  /** What the `PrintFeat` lambda writes: four spaces, the name, ": ", then "Yes" or "No". */
  function FeatLine(featName: string, isSet: bool): string
  {
    "    " + featName + ": " + YesNo(isSet)
  }

  /** Reads a feature line back: the name between the indent and ": ", and the answer after it. */
  function ParseFeatLine(line: string): Option<Feature>
  {
    if |line| >= 9 && line[..4] == "    " && line[|line| - 5..] == ": Yes" then
      Some(Feature(line[4..|line| - 5], true))
    else if |line| >= 8 && line[..4] == "    " && line[|line| - 4..] == ": No" then
      Some(Feature(line[4..|line| - 4], false))
    else None
  }

  /** A feature line loses nothing: whatever the name, it reads back as the same name and answer. */
  lemma FeatLineRoundTrip(featName: string, isSet: bool)
    ensures ParseFeatLine(FeatLine(featName, isSet)) == Some(Feature(featName, isSet))
  {
    var line := FeatLine(featName, isSet);
    assert line[..4] == "    ";
    if isSet {
      assert line == "    " + featName + ": Yes";
      assert line[|line| - 5..] == ": Yes";
      assert line[4..|line| - 5] == featName;
    } else {
      assert line == "    " + featName + ": No";
      assert line[|line| - 1] == 'o';
      assert line[|line| - 5..][4] == 'o';
      assert line[|line| - 4..] == ": No";
      assert line[4..|line| - 4] == featName;
    }
  }

  /** The line for one listed cache sub-leaf, indented by four spaces. */
  function CacheLine(r: Regs): string
  {
    "    " + CacheText(DecodeCache(r))
  }

  /** The lines under the cache heading: one per listed cache, or the "no enumeration" line. */
  function CacheBody(cpuid: Cpuid): seq<string>
  {
    match Caches(cpuid)
    case None => [NoEnumeration]
    case Some(rs) => Each(rs, CacheLine)
  }

  // -------------------------------------------------------------------------
  // The report
  // -------------------------------------------------------------------------

  /** The cache block: the cache heading, then the listed caches or the "no enumeration" line. */
  function AfterCaches(pre: seq<string>, cpuid: Cpuid): seq<string>
  {
    match Caches(cpuid)
    case None => pre + [""] + [CacheHeading] + [NoEnumeration]
    case Some(rs) => AfterEach(pre + [""] + [CacheHeading], rs, CacheLine)
  }

  /** The lines of the report, given the logical processor count and the printed frequency. */
  function ReportLines(cpuid: Cpuid, logicalCount: bv32, freq: string): seq<string>
  {
    var header := AfterHeader([], cpuid);
    assert header == [VendorLine(cpuid), SignatureLine(SignatureOf(cpuid)), BrandLine(Brand(cpuid))];
    var standard := AfterStandard(header, StandardHeading, Query(cpuid, 1), FeatLine);
    var features := AfterExtended(standard, ExtendedHeading, Query(cpuid, 0x8000_0001), FeatLine);
    AfterFrequency(AfterCaches(AfterCores(features, cpuid, logicalCount), cpuid), freq)
  }

  /** The report text: every line followed by "\r\n". */
  function Report(cpuid: Cpuid, logicalCount: bv32, freq: string): string
  {
    Render(ReportLines(cpuid, logicalCount, freq), CRLF)
  }

  /** The cache block is its heading followed by the cache body. */
  lemma CacheSection(pre: seq<string>, cpuid: Cpuid)
    ensures AfterCaches(pre, cpuid) == pre + ["", CacheHeading] + CacheBody(cpuid)
  {
    TwoLines(pre, "", CacheHeading);
    match Caches(cpuid)
    case None =>
    case Some(rs) => AfterEachInOrder(pre + [""] + [CacheHeading], rs, CacheLine);
  }

  /**
   * The report, section by section: the vendor, signature and brand lines;
   * the standard flags and the extended flags, each under its heading and
   * each the `PrintFeat` line of the decoded flag; the two core counts; the
   * caches; and the frequency. Every section but the first opens with an
   * empty line.
   */
  lemma ReportLayout(cpuid: Cpuid, logicalCount: bv32, freq: string)
    ensures ReportLines(cpuid, logicalCount, freq)
      == [VendorLine(cpuid), SignatureLine(SignatureOf(cpuid)), BrandLine(Brand(cpuid))]
        + ["", StandardHeading] + FlagLines(StandardFeatures(cpuid), FeatLine)
        + ["", ExtendedHeading] + FlagLines(ExtendedFeatures(cpuid), FeatLine)
        + ["", LogicalLine(logicalCount), CoresLine(PhysicalCores(cpuid, logicalCount))]
        + ["", CacheHeading] + CacheBody(cpuid)
        + ["", FrequencyLine(freq)]
  {
    var header := AfterHeader([], cpuid);
    ThreeLines([], VendorLine(cpuid), SignatureLine(SignatureOf(cpuid)), BrandLine(Brand(cpuid)));
    assert header == [VendorLine(cpuid), SignatureLine(SignatureOf(cpuid)), BrandLine(Brand(cpuid))];
    StandardSection(header, StandardHeading, Query(cpuid, 1), FeatLine);
    var standard := AfterStandard(header, StandardHeading, Query(cpuid, 1), FeatLine);
    ExtendedSection(standard, ExtendedHeading, Query(cpuid, 0x8000_0001), FeatLine);
    var features := AfterExtended(standard, ExtendedHeading, Query(cpuid, 0x8000_0001), FeatLine);
    ThreeLines(features, "", LogicalLine(logicalCount), CoresLine(PhysicalCores(cpuid, logicalCount)));
    var cores := AfterCores(features, cpuid, logicalCount);
    CacheSection(cores, cpuid);
    TwoLines(AfterCaches(cores, cpuid), "", FrequencyLine(freq));
  }

  // -------------------------------------------------------------------------
  // The code
  // -------------------------------------------------------------------------

  /**
   * The cache block: the heading, then the enumeration leaf chosen from the two
   * maxima read earlier, then one line per sub-leaf until the type code is
   * 0 or 32 sub-leaves have been read.
   */
  method WriteCaches(oss: TextStream, cpuid: Cpuid, maxBasic: int, maxExt: bv32)
    requires maxBasic == MaxBasic(cpuid) && maxExt == MaxExtended(cpuid)
    modifies oss
    ensures oss.lines == AfterCaches(old(oss.lines), cpuid)
  {
    oss.WriteLine("");
    oss.WriteLine(CacheHeading);
    var leafCache: bv32 := 0;
    if maxBasic >= 4 {
      leafCache := 4;
    } else if maxExt >= 0x8000_001D {
      leafCache := 0x8000_001D;
    }
    assert CacheLeaf(cpuid) == leafCache;
    if leafCache == 0 {
      oss.WriteLine(NoEnumeration);
    } else {
      WriteCacheLines(oss, cpuid, leafCache, CacheLine);
    }
  }

  /**
   * The whole report, written to a fresh stream: vendor, signature, brand,
   * features, cores, caches and frequency. The logical processor count
   * (from `GetSystemInfo`) and the printed frequency come in as inputs.
   */
  method GetCPUInformation(cpuid: Cpuid, logicalCount: bv32, freq: string) returns (report: string)
    ensures report == Report(cpuid, logicalCount, freq)
  {
    var oss := new TextStream(CRLF);
    var maxExt := WriteHeader(oss, cpuid);
    WriteFeatureFlags(oss, cpuid, StandardHeading, ExtendedHeading, FeatLine);
    var maxBasic := WriteCores(oss, cpuid, logicalCount);
    WriteCaches(oss, cpuid, maxBasic, maxExt);
    oss.WriteLine("");
    oss.WriteLine(FrequencyLine(freq));
    report := oss.Str();
  }
}
