/**
 * The text both front ends print for the decoded facts: the same words in
 * the same order, whichever stream they go to.
 */
module Formats {
  import opened Registers
  import opened Text
  import opened Decoder

  /** "CPU Vendor: <vendor>". */
  function VendorLine(cpuid: Cpuid): string
  {
    "CPU Vendor: " + VendorText(cpuid)
  }

  /** "Family: %d, Model: %d, Stepping: %d, Type: %d". */
  function SignatureLine(s: Signature): string
  {
    "Family: " + Decimal(AsUInt32(s.family)) + ", Model: " + Decimal(AsUInt32(s.model))
      + ", Stepping: " + Decimal(AsUInt32(s.stepping)) + ", Type: " + Decimal(AsUInt32(s.kind))
  }

  /** "CPU Brand: <brand>", or "CPU Brand: <Not available>". */
  function BrandLine(brand: Option<seq<Byte>>): string
  {
    match brand
    case Some(b) => "CPU Brand: " + Chars(b)
    case None => "CPU Brand: <Not available>"
  }

  function KindName(k: CacheKind): string
  {
    match k
    case Data => "Data"
    case Instruction => "Instruction"
    case Unified => "Unified"
    case Unknown => "Unknown"
  }

  /** "L<level> <type> Cache: <size> KB, <ways>-way, line size <line> bytes", after the indent. */
  function CacheText(e: CacheEntry): string
  {
    "L" + Decimal(AsUInt32(e.level)) + " " + KindName(e.kind) + " Cache: " + Decimal(e.sizeKB)
      + " KB, " + Decimal(AsUInt32(e.ways)) + "-way, line size " + Decimal(AsUInt32(e.lineSize)) + " bytes"
  }

  /** "Logical Processors: %u", after the empty line that "\n" opens. */
  function LogicalLine(logical: bv32): string
  {
    "Logical Processors: " + Decimal(AsUInt32(logical))
  }

  /** "Approx. Physical Cores: %d". */
  function CoresLine(physicalCores: int): string
  {
    "Approx. Physical Cores: " + SignedDecimal(physicalCores)
  }

  /** The frequency line; the frequency itself comes in already printed as `freq`. */
  function FrequencyLine(freq: string): string
  {
    "Approx. CPU Frequency: " + freq + " MHz"
  }
}
