# CPU information utility: the CPUID decoder, modelled in Dafny

The repository ships two small Windows front ends. Both identify the
processor with the x86 `CPUID` instruction and print what they decode:

- a window program, `GetCPUInformation`, which collects a report in a
  `std::ostringstream` with lines ended by "\r\n";
- a console program, `main` and its `Show...` helpers, which prints the
  same sections with `printf` and lines ended by "\n".

The report covers:

- the vendor string (leaf 0);
- family, model, stepping and type (leaf 1, EAX);
- the brand string (leaves 0x80000002 to 0x80000004, when leaf 0x80000000
  reports them);
- ten standard feature flags (leaf 1) and four extended flags
  (leaf 0x80000001);
- the logical processor count and an approximate physical core count
  (leaf 4 for Intel, leaf 0x80000008 for AMD);
- the cache hierarchy, enumerated through leaf 4 or leaf 0x8000001D;
- the measured frequency.

The model treats the instruction as a function `cpuid: (bv32, int) -> Regs`
from a leaf and a sub-leaf to the four 32-bit registers. It is written in
the following modules:

- `Registers`: the registers, the memory image of an `int` array, bit
  tests, and the `int`/`unsigned` readings of a 32-bit word.
- `Text`: C strings read up to the first NUL, the leading-space walk,
  `strstr`, and the `%d`/`%u`/`%x` numerals with their inverse. It also
  holds `%-8s` padding and the rendering of lines with a line ending.
- `Decoder`: what the registers mean, written as specification functions.
  It covers the vendor, the signature, the brand, the flag tables and
  decoded features, the physical core estimate, the cache enumeration
  leaf, one decoded cache, and the scan over sub-leaves. The lemmas state
  what the decoded facts are in terms of the registers.
- `Buffers`: the imperative buffer code. Vendor and brand buffers are
  zeroed, then filled with `memcpy` (into `array`s), and the brand's
  leading spaces are skipped with a pointer walk.
- `Probe`: the signature decode done step by step on local variables, and
  the physical-core estimate.
- `Formats`: the text of each line both programs print.
- `Streams`: `TextStream`, a class whose `lines` field every write extends.
  It stands for the `ostringstream` and for standard output.
- `Sections`: the section code the two programs share (header, feature
  flags, cores, and the cache loop). Each method is proved against the
  lines the stream holds afterwards: the old lines plus the written line,
  or an `After...` function of the old lines for a section of several.
- `WindowsReport` and `ConsoleReport`: the two programs. Each is proved to
  produce `Report`, or `Output`, respectively. Each also has a layout
  lemma that states the whole report section by section.

On one point the code departs from the documented CPUID rule, and the
model follows the code. The code merges the extended model into the model when the
family, AFTER the extended family has been added to it, is 6 or 0xF. The
rule in the Intel Software Developer's Manual (Vol. 2A, CPUID leaf 01H)
tests the base family field instead. `Decoder.DecodeVersusSdm` proves when
the two agree. They differ exactly when the base family is 0xF, the
extended family is nonzero and the extended model is nonzero; there the
model prints un-extended (for example, 0x00870F10 prints model 1 where the
manual gives 0x71, see `Decoder.SignatureExamples`). Since both programs
behave this way and the model states the divergence outright, it is
modelled as written.

## Model

| member | source | states |
|---|---|---|
| Registers.WordBytes | cpuz_display_on_windows/Source.cpp:100-102 | `memcpy` of one `int` copies four bytes, lowest first; packing them back gives the register |
| Registers.WordBytesInjective | cpuz_display_on_windows/Source.cpp:100-102 | two registers with the same copied bytes are the same register |
| Registers.RegsWords | cpuz_display_on_windows/Source.cpp:93-94 | `cpuInfo` holds four words after a query |
| Registers.WordsBytes | cpuz_display_on_windows/Source.cpp:139-144 | the image of an `int` array is four bytes per word |
| Registers.WordsBytesUnpack | cpuz_display_on_windows/Source.cpp:139-144 | every word of `brandData` can be read back from its four bytes at offset 4*i of the copied image |
| Registers.FlipBit | cpuz_display_on_windows/Source.cpp:170-179 | inverting a bit inverts the `(w & (1 << bit)) != 0` test for that bit |
| Registers.FlipBitKeepsOthers | cpuz_display_on_windows/Source.cpp:170-179 | inverting one bit leaves the test of every other bit unchanged |
| Registers.AsUInt32 | cpuz_display_on_windows/Source.cpp:133 | `static_cast<unsigned>` reads the 32 bits as their binary value, below 2^32; it equals the signed reading when the sign bit is clear and exceeds it by 2^32 when it is set |
| Registers.AsInt32 | cpuz_display_on_windows/Source.cpp:208 | an `int` holds the two's-complement value of the 32 bits: the binary value, less 2^32 when the sign bit is set; it lies in [-2^31, 2^31) and is negative exactly when the sign bit is set |
| Text.CString | cpuz_display_on_windows/Source.cpp:104 | a buffer read as a C string yields no more bytes than the buffer |
| Text.SkipSpaces | cpuz_display_on_windows/Source.cpp:147-150 | the pointer walk leaves no more bytes than the buffer |
| Text.CStringIsPrefix | cpuz_display_on_windows/Source.cpp:104 | a C string is the NUL-free prefix of the buffer, cut at the first NUL or at the end |
| Text.CStringTerminated | cpuz_display_on_windows/Source.cpp:96-104 | the terminating NUL that `memset` leaves changes nothing that is read |
| Text.SkipSpacesIsSuffix | cpuz_display_on_windows/Source.cpp:147-150 | the walk skips only spaces and stops at the first byte that is not a space |
| Text.SkipSpacesTerminated | cpuz_display_on_windows/Source.cpp:136-150 | the walk never passes the terminating NUL |
| Text.TrimmedText | cpuz_display_on_windows/Source.cpp:136-151 | the printed brand is the raw bytes after the `k` leading spaces, up to the first NUL or the end of the buffer, and holds no NUL |
| Text.Digit | cpuz_display_on_cmd/Source.cpp:233 | a `%x` or `%u` digit is `0`-`9` or lower-case `a`-`f` |
| Text.Numeral | cpuz_display_on_windows/Source.cpp:124-127 | a printed number has at least one digit and no leading zero |
| Text.NumeralRoundTrip | cpuz_display_on_cmd/Source.cpp:99-100 | reading a printed number back gives the number, so no two values print alike |
| Text.PadRight | cpuz_display_on_cmd/Source.cpp:61 | `%-8s` keeps the name whole, pads it with spaces to eight characters, and never truncates it |
| Text.RenderAppend | cpuz_display_on_windows/Source.cpp:269 | the text of two blocks of lines is the text of the first, then the text of the second |
| Decoder.Vendor | cpuz_display_on_windows/Source.cpp:93-104 | no contract; defines the printed vendor: the bytes of EBX, EDX and ECX read as a C string. Its properties are stated by `Decoder.VendorBytes` and `Decoder.VendorIsNulTrimmed`, and `Buffers.ReadVendor` is proved equal to it |
| Decoder.VendorBytes | cpuz_display_on_windows/Source.cpp:96-102 | the vendor buffer holds the bytes of EBX, then EDX, then ECX, at offsets 0, 4 and 8 |
| Decoder.VendorIsNulTrimmed | cpuz_display_on_windows/Source.cpp:96-104 | the printed vendor is at most 12 bytes: the register bytes up to the first NUL |
| Decoder.Family | cpuz_display_on_windows/Source.cpp:112-119 | no contract; the base family, plus the extended family when the base family is 0xF. See `Decoder.SignatureMerges` and `Decoder.SignatureRanges` |
| Decoder.Model | cpuz_display_on_windows/Source.cpp:111-122 | no contract; the base model, plus the extended model shifted left by 4 when the family after its update is 6 or 0xF. See `Decoder.SignatureMerges` and `Decoder.DecodeVersusSdm` |
| Decoder.DecodeSignature | cpuz_display_on_windows/Source.cpp:109-122 | no contract; the family, model, stepping and type that are printed. `Probe.ReadSignature` is proved equal to it; see `Decoder.SignatureRanges` and `Decoder.SignatureExamples` |
| Decoder.SignatureRanges | cpuz_display_on_windows/Source.cpp:109-122 | stepping < 16, type < 4, family <= 0xF + 0xFF, model < 0x100 |
| Decoder.SignatureMerges | cpuz_display_on_windows/Source.cpp:117-122 | the family is extended exactly when the base family is 0xF; the model is extended exactly when the base family is 6, or 0xF with a zero extended family |
| Decoder.DecodeVersusSdm | cpuz_display_on_windows/Source.cpp:117-122 | family, stepping and type always agree with the manual's rule; the model agrees exactly unless the base family is 0xF and both extended fields are nonzero |
| Decoder.SignatureExamples | cpuz_display_on_windows/Source.cpp:109-127 | 0x000306A9 decodes to family 6, model 58, stepping 9; 0x00870F10 decodes to family 0x17, model 1, where the manual gives model 0x71 |
| Decoder.Brand | cpuz_display_on_windows/Source.cpp:132-155 | no contract; absent when the unsigned maxExt is below 0x80000004, else the 48 brand bytes after their leading spaces, up to the first NUL. See `Decoder.BrandAbsence` and `Decoder.BrandIsTrimmed`; `Buffers.ReadBrand` is proved equal to it |
| Decoder.BrandWords | cpuz_display_on_windows/Source.cpp:139-142 | `brandData` holds twelve words after the three brand leaves |
| Decoder.BrandBytes | cpuz_display_on_windows/Source.cpp:144 | 48 bytes are copied into the brand buffer |
| Decoder.BrandAbsence | cpuz_display_on_windows/Source.cpp:135-155 | "<Not available>" is printed exactly when the highest extended leaf is below 0x80000004 |
| Decoder.BrandIsTrimmed | cpuz_display_on_windows/Source.cpp:136-151 | a present brand starts after the leading spaces of the 48 brand bytes, does not start with a space, holds no NUL, and ends at the first NUL or at byte 48 |
| Decoder.TablesValid | cpuz_display_on_windows/Source.cpp:170-189 | no two flags of either list test the same bit of the same register |
| Decoder.DecodeFeatures | cpuz_display_on_windows/Source.cpp:164-179 | one decoded flag per table entry |
| Decoder.StandardListed | cpuz_display_on_windows/Source.cpp:169-179 | the standard flags are SSE, SSE2 (EDX 25, 26); SSE3, SSSE3, SSE4.1, SSE4.2, AVX, FMA3, PCLMUL, AES (ECX 0, 9, 19, 20, 28, 12, 1, 25), in that order |
| Decoder.ExtendedListed | cpuz_display_on_windows/Source.cpp:185-189 | the extended flags are x86-64 (LM) EDX 29, RDTSCP ECX 27, SSE4a(AMD) ECX 6, MMXExt(AMD) EDX 22, in that order |
| Decoder.FlipInKeepsOthers | cpuz_display_on_windows/Source.cpp:170-189 | inverting one bit of ECX or EDX leaves every other flag bit of either register unchanged |
| Decoder.FlagIsItsBit | cpuz_display_on_windows/Source.cpp:170-189 | inverting the bit of flag i inverts that flag and leaves every other flag line unchanged |
| Decoder.OtherBitsIgnored | cpuz_display_on_windows/Source.cpp:170-189 | a bit that no flag tests has no effect on the decoded flags |
| Decoder.IntelCores | cpuz_display_on_windows/Source.cpp:209-213 | EAX[31:26] + 1 of leaf 4 lies in 1..64 |
| Decoder.AmdCores | cpuz_display_on_windows/Source.cpp:214-218 | ECX[7:0] + 1 of leaf 0x80000008 lies in 1..256 |
| Decoder.IntelTest | cpuz_display_on_windows/Source.cpp:209 | no contract; "Intel" occurs in the vendor and the signed maxBasic is at least 4. See `Decoder.IntelAndAmdExclusive` |
| Decoder.AmdTest | cpuz_display_on_windows/Source.cpp:214 | no contract; "AuthenticAMD" occurs in the vendor and the unsigned maxExt is at least 0x80000008. See `Decoder.IntelAndAmdExclusive` |
| Decoder.PhysicalCores | cpuz_display_on_windows/Source.cpp:197-218 | no contract; the leaf 4 count when the Intel test holds, else the leaf 0x80000008 count when the AMD test holds, else the logical count as an `int`. See `Decoder.PhysicalCoresCases`; `Probe.ApproxPhysicalCores` is proved equal to it |
| Decoder.PhysicalCoresCases | cpuz_display_on_windows/Source.cpp:194-218 | the estimate is the Intel count, else the AMD count, else the logical count read as an `int` (non-negative when it fits) |
| Decoder.VendorTestsExclusive | cpuz_display_on_windows/Source.cpp:209-218 | a vendor of at most 12 bytes that contains "AuthenticAMD" is exactly that, and does not contain "Intel" |
| Decoder.IntelAndAmdExclusive | cpuz_display_on_windows/Source.cpp:209-218 | the Intel and AMD tests never both hold, so their order decides nothing |
| Decoder.CacheLeaf | cpuz_display_on_windows/Source.cpp:227-233 | no contract; leaf 4 when the signed maxBasic is at least 4, else 0x8000001D when the unsigned maxExt reaches it, else 0 (none). See `Decoder.CacheLeafChoice` |
| Decoder.CacheLeafChoice | cpuz_display_on_windows/Source.cpp:227-233 | the leaf is 4 exactly when the basic leaves reach 4, else 0x8000001D exactly when the extended leaves reach it, else 0; only the two maxima matter |
| Decoder.KindOf | cpuz_display_on_windows/Source.cpp:252-255 | no contract; type codes 1, 2 and 3 name a data, instruction and unified cache, and any other code is unknown. See `Decoder.DecodeCacheInverse` |
| Decoder.DecodeCache | cpuz_display_on_windows/Source.cpp:245-255 | level < 8; ways and partitions in 1..1024; line size in 1..4096; the size is ways × partitions × line size × sets, taken modulo 2^32, in whole KB rounded down (so below 2^22) |
| Decoder.SizeKB | cpuz_display_on_windows/Source.cpp:250 | the `unsigned` product, wrapped at every multiplication and then divided by 1024, is the whole product wrapped once, in whole KB rounded down |
| Decoder.MulWrapLeft | cpuz_display_on_windows/Source.cpp:250 | wrapping a partial product before the next `unsigned` multiplication wraps the full product the same way |
| Decoder.CacheSizeExact | cpuz_display_on_windows/Source.cpp:246-250 | whenever ways × partitions × line size × sets fits in 32 bits, the printed size is exactly that byte count divided by 1024 |
| Decoder.CacheSizeExamples | cpuz_display_on_windows/Source.cpp:241-255 | EAX=0x121, EBX=0x01C0003F, ECX=0x3F decodes to a level 1 data cache of 32 KB, 8 ways, 64-byte lines and 64 sets; EBX=0xFFFFFFFF with ECX=0 is 2^32 bytes, which wraps to 0 KB |
| Decoder.DecodeCacheInverse | cpuz_display_on_windows/Source.cpp:241-255 | the decoded geometry rebuilds EBX and ECX, and the level and type come from EAX[7:5] and EAX[4:0] |
| Decoder.CacheScan | cpuz_display_on_windows/Source.cpp:239-244 | no contract; the registers of the sub-leaves listed from a given sub-leaf, up to sub-leaf 31, stopping at the first type code 0. See `Decoder.CacheScanFrom` and `Decoder.CacheScanUnique`; `Sections.WriteCacheLines` is proved against it |
| Decoder.Caches | cpuz_display_on_windows/Source.cpp:227-244 | no contract; none without an enumeration leaf, else the scan of that leaf from sub-leaf 0. See `Decoder.CacheEnumeration` |
| Decoder.CacheScanStep | cpuz_display_on_windows/Source.cpp:239-244 | a sub-leaf with a nonzero type is listed and the scan goes on |
| Decoder.CacheScanStop | cpuz_display_on_windows/Source.cpp:239-244 | the scan ends at sub-leaf 32 or at type 0 |
| Decoder.CacheScanFrom | cpuz_display_on_windows/Source.cpp:239-260 | the scan lists consecutive sub-leaves with nonzero types, never past 31, and an early end is at type 0 |
| Decoder.CacheScanUnique | cpuz_display_on_windows/Source.cpp:239-260 | conversely, any run of consecutive sub-leaves with nonzero types that ends at 32 or at type 0 is the scan |
| Decoder.CacheEnumeration | cpuz_display_on_windows/Source.cpp:227-260 | the listed caches are the longest run from sub-leaf 0 with nonzero types, capped at 32 entries |
| Buffers.Memcpy | cpuz_display_on_windows/Source.cpp:100-102 | the copied bytes replace exactly their range of the buffer, and nothing else changes |
| Buffers.StoreRegs | cpuz_display_on_windows/Source.cpp:140-142 | a query stores EAX, EBX, ECX, EDX at `brandData[at..at+4]`, and nothing else changes |
| Buffers.SkipLeadingSpaces | cpuz_display_on_windows/Source.cpp:147-150 | the walk stops inside a NUL-terminated buffer, at the suffix `SkipSpaces` gives |
| Buffers.FillVendorBuffer | cpuz_display_on_windows/Source.cpp:96-102 | the zeroed 13-byte buffer after the three copies holds EBX, EDX, ECX and a final NUL |
| Buffers.ReadVendor | cpuz_display_on_windows/Source.cpp:93-104 | the filled buffer, read as a C string, is the specified vendor |
| Buffers.ReadBrandWords | cpuz_display_on_windows/Source.cpp:139-142 | `brandData` holds the registers of leaves 0x80000002, 0x80000003 and 0x80000004, in order |
| Buffers.ReadBrand | cpuz_display_on_windows/Source.cpp:136-151 | the brand buffer after the stores, the copy and the walk reads as the specified brand |
| Probe.ReadSignature | cpuz_display_on_windows/Source.cpp:109-122 | the in-place family and model updates give the specified signature |
| Probe.ApproxPhysicalCores | cpuz_display_on_windows/Source.cpp:194-218 | the default, then the Intel or AMD override, give the specified estimate |
| Formats.VendorLine | cpuz_display_on_windows/Source.cpp:104 | no contract; "CPU Vendor: " followed by the vendor. `Sections.WriteVendor` is proved to write it |
| Formats.SignatureLine | cpuz_display_on_windows/Source.cpp:124-127 | no contract; the four fields in decimal, each after its label. `Sections.WriteSignature` is proved to write it; the numerals are read back by `Text.NumeralRoundTrip` |
| Formats.BrandLine | cpuz_display_on_windows/Source.cpp:151-154 | no contract; "CPU Brand: " followed by the brand, or "<Not available>" when it is absent. `Sections.WriteBrand` is proved to write it |
| Formats.CacheText | cpuz_display_on_windows/Source.cpp:257-259 | no contract; the level, the type name, the size in KB, the ways and the line size, in decimal. `Sections.WriteCacheLines` is proved to write one per listed sub-leaf |
| Formats.LogicalLine | cpuz_display_on_windows/Source.cpp:220 | no contract; "Logical Processors: " followed by the count as an unsigned decimal. `Sections.WriteCores` is proved to write it |
| Formats.CoresLine | cpuz_display_on_windows/Source.cpp:221 | no contract; "Approx. Physical Cores: " followed by the estimate as a signed decimal. `Sections.WriteCores` is proved to write it |
| Streams.TextStream.constructor | cpuz_display_on_windows/Source.cpp:88 | a fresh stream holds no lines |
| Streams.TextStream.WriteLine | cpuz_display_on_windows/Source.cpp:104 | a write appends exactly its line |
| Streams.WriteLineText | cpuz_display_on_windows/Source.cpp:104 | writing a line adds exactly that line and the line ending to the text |
| Streams.AfterEachInOrder | cpuz_display_on_windows/Source.cpp:239-260 | lines written one item at a time are each item's line, in order |
| Sections.StandardSection | cpuz_display_on_windows/Source.cpp:169-179 | the ten standard flag lines are the printer's lines for the decoded standard flags, in table order |
| Sections.ExtendedSection | cpuz_display_on_windows/Source.cpp:185-189 | the four extended flag lines are the printer's lines for the decoded extended flags |
| Sections.WriteVendor | cpuz_display_on_windows/Source.cpp:93-104 | the vendor line of leaf 0 is written |
| Sections.WriteSignature | cpuz_display_on_windows/Source.cpp:109-127 | the family, model, stepping and type line of leaf 1 is written |
| Sections.WriteBrand | cpuz_display_on_windows/Source.cpp:132-155 | the brand line, or "<Not available>", is written, and the highest extended leaf is returned |
| Sections.WriteHeader | cpuz_display_on_windows/Source.cpp:93-155 | the vendor, signature and brand lines are written, and the highest extended leaf is returned |
| Sections.WriteStandardFlags | cpuz_display_on_windows/Source.cpp:160-179 | the empty line, the heading and the ten leaf 1 flag lines are written, in order |
| Sections.WriteExtendedFlags | cpuz_display_on_windows/Source.cpp:181-189 | the empty line, the heading and the four leaf 0x80000001 flag lines are written, in order |
| Sections.WriteFeatureFlags | cpuz_display_on_windows/Source.cpp:160-189 | both headings and all fourteen flag lines are written, in order |
| Sections.WriteCores | cpuz_display_on_windows/Source.cpp:194-221 | the logical and physical core lines are written, and the signed maximum basic leaf is returned |
| Sections.WriteCacheLines | cpuz_display_on_windows/Source.cpp:239-260 | the loop writes one line per scanned sub-leaf, in order, stopping at type 0 or after 32 |
| WindowsReport.FeatLine | cpuz_display_on_windows/Source.cpp:164-167 | no contract; four spaces, the name, ": ", then "Yes" or "No". See `WindowsReport.FeatLineRoundTrip` |
| WindowsReport.FeatLineRoundTrip | cpuz_display_on_windows/Source.cpp:164-167 | every `PrintFeat` line reads back as its name and answer |
| WindowsReport.CacheSection | cpuz_display_on_windows/Source.cpp:226-261 | the cache section is its heading, then one line per listed cache or the no-enumeration line |
| WindowsReport.Report | cpuz_display_on_windows/Source.cpp:86-270 | no contract; the report lines, each followed by "\r\n". `WindowsReport.ReportLayout` lays it out section by section, and `WindowsReport.GetCPUInformation` is proved to return it |
| WindowsReport.ReportLayout | cpuz_display_on_windows/Source.cpp:86-270 | the report is the header, the flag sections with the decoded flags, the cores, the caches and the frequency, each later section opening with an empty line |
| WindowsReport.WriteCaches | cpuz_display_on_windows/Source.cpp:226-261 | the cache section is written from the two maxima read earlier |
| WindowsReport.GetCPUInformation | cpuz_display_on_windows/Source.cpp:86-270 | the returned string is the specified report, with lines ended by "\r\n" |
| ConsoleReport.FlagLine | cpuz_display_on_cmd/Source.cpp:59-62 | no contract; two spaces, the name padded to eight columns, ": ", then "Yes" or "No". See `ConsoleReport.FlagLineLayout` |
| ConsoleReport.FlagLineLayout | cpuz_display_on_cmd/Source.cpp:59-62 | a flag line is the indent, the whole name, spaces up to column 10, ": ", then Yes or No |
| ConsoleReport.LeafHeading | cpuz_display_on_cmd/Source.cpp:233 | no contract; the cache heading naming the leaf in lower-case hex. See `ConsoleReport.LeafHeadings` |
| ConsoleReport.AmdLeafHex | cpuz_display_on_cmd/Source.cpp:233 | `%x` prints 0x8000001D as "8000001d" |
| ConsoleReport.LeafHeadings | cpuz_display_on_cmd/Source.cpp:233 | `%x` names the leaves as "0x4" and "0x8000001d" |
| ConsoleReport.CacheInfoSection | cpuz_display_on_cmd/Source.cpp:228-255 | the cache section is its heading (naming the leaf when there is one), then the cache lines or the no-enumeration line |
| ConsoleReport.Output | cpuz_display_on_cmd/Source.cpp:261-283 | no contract; the output lines, each followed by "\n". `ConsoleReport.OutputLayout` lays it out section by section, and `ConsoleReport.Run` is proved to print it |
| ConsoleReport.OutputLayout | cpuz_display_on_cmd/Source.cpp:261-283 | the output is the banner, the header, the flag sections, the cores, the caches, the frequency and the rule |
| ConsoleReport.ShowBasicCPUInfo | cpuz_display_on_cmd/Source.cpp:67-125 | prints the vendor, signature and brand lines |
| ConsoleReport.ShowFeatureFlags | cpuz_display_on_cmd/Source.cpp:130-161 | prints both flag sections with `PrintFeatureFlag` lines |
| ConsoleReport.ShowCoreAndThreadCount | cpuz_display_on_cmd/Source.cpp:166-205 | prints the logical count and the physical-core estimate |
| ConsoleReport.ShowCacheInfo | cpuz_display_on_cmd/Source.cpp:210-256 | reads both maxima, then either returns after the no-enumeration lines or prints the leaf heading and the scan |
| ConsoleReport.Run | cpuz_display_on_cmd/Source.cpp:261-283 | `main` prints the specified output and returns 0 |

## Left out

- The frequency measurement (`MeasureCPUFrequencyMHz`: `QueryPerformanceCounter`, `__rdtsc`, `Sleep`, floating-point division) is not modelled. The printed frequency is an input string `freq`. The model therefore does not capture the differing `double` formats (`operator<<` in the window, `%.2f` on the console).
- `GetSystemInfo` is not modelled. Its `dwNumberOfProcessors` is the input `logicalCount`.
- The `__cpuid` and `__cpuidex` intrinsics are the function parameter `cpuid`. It is deterministic, so the programs' repeated reads of the same leaf, and their order, change nothing. For example, `ShowCoreAndThreadCount` reads the maxima before the vendor, and the window reads them after it.
- The window program's Win32 part is not modelled, as it is I/O: `StringToWString`, `WinMain`, `WndProc`, the window class, the edit control and its font.
- A write that holds several line endings (such as "\r\nCache Information:\r\n") is modelled as one `WriteLine` per line, and the text is the lines joined with their endings (`Text.Render`). This yields the same characters.
- Both programs write the header, flag, core and cache-loop code as separate copies. The model writes each once, in `Sections`, with the parts that differ as parameters: the headings, the flag printer and the cache line.
- The per-sub-leaf locals of the cache loop are computed by `Decoder.DecodeCache` and printed by `Formats.CacheText` in one step, not one local variable at a time.
- Decoder.DecodeFeatures: its own contract states only the length. The names, bits and order are stated by `Decoder.StandardListed` and `Decoder.ExtendedListed`, and the bit semantics by `Decoder.FlagIsItsBit`.
- The `int` sum `cpuInfo[2] + 1` (the sets count) overflows when ECX is 0x7FFFFFFF, which C leaves undefined. The model takes it as 32-bit wrap-around, the same as the `unsigned` arithmetic around it (`Decoder.DecodeCache`).
