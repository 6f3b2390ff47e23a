/**
 * The character buffers both front ends fill from the registers: zeroed by
 * `memset`, written by `memcpy`, then read as C strings, with the brand's
 * leading spaces skipped by a pointer walk.
 */
module Buffers {
  import opened Registers
  import opened Text
  import opened Decoder

  /** `memcpy(dst + at, src, |src|)`: the bytes of `src` replace `dst[at..at + |src|]`. */
  method Memcpy(dst: array<Byte>, at: nat, src: seq<Byte>)
    requires at + |src| <= dst.Length
    modifies dst
    ensures dst[..] == old(dst[..at]) + src + old(dst[at + |src|..])
  {
    forall i | 0 <= i < |src| {
      dst[at + i] := src[i];
    }
  }

  /** `cpuid(&words[at], leaf)`: the intrinsic stores EAX, EBX, ECX, EDX at `words[at..at + 4]`. */
  method StoreRegs(words: array<bv32>, at: nat, r: Regs)
    requires at + 4 <= words.Length
    modifies words
    ensures words[..] == old(words[..at]) + RegsWords(r) + old(words[at + 4..])
  {
    words[at] := r.eax;
    words[at + 1] := r.ebx;
    words[at + 2] := r.ecx;
    words[at + 3] := r.edx;
  }

  /**
   * `while (*p == ' ') p++;` over a buffer whose last byte is the NUL that
   * `memset` left there, which stops the walk inside the buffer.
   */
  method SkipLeadingSpaces(buf: array<Byte>) returns (p: nat)
    requires buf.Length > 0 && buf[buf.Length - 1] == NUL
    ensures p < buf.Length
    ensures buf[p..] == SkipSpaces(buf[..])
  {
    p := 0;
    assert buf[p..] == buf[..];
    while buf[p] == SPACE
      invariant p < buf.Length
      invariant SkipSpaces(buf[p..]) == SkipSpaces(buf[..])
      decreases buf.Length - p
    {
      assert buf[p..][1..] == buf[p + 1..];
      p := p + 1;
    }
  }

  /**
   * `char vendor[13]`, zeroed, then the three register images copied to
   * offsets 0, 4 and 8.
   */
  method FillVendorBuffer(ebx: seq<Byte>, edx: seq<Byte>, ecx: seq<Byte>) returns (buf: array<Byte>)
    requires |ebx| == 4 && |edx| == 4 && |ecx| == 4
    ensures fresh(buf)
    ensures buf[..] == ebx + edx + ecx + [NUL]
  {
    buf := new Byte[13](_ => NUL);
    assert buf[..0] == [] && buf[4..] == seq(9, _ => NUL);
    Memcpy(buf, 0, ebx);
    assert buf[..4] == ebx && buf[8..] == seq(5, _ => NUL);
    Memcpy(buf, 4, edx);
    assert buf[..8] == ebx + edx && buf[12..] == [NUL];
    Memcpy(buf, 8, ecx);
  }

  /**
   * The vendor buffer filled from EBX, EDX and ECX, read as `%s` or
   * `operator<<` reads it.
   */
  method ReadVendor(r: Regs) returns (vendor: seq<Byte>)
    ensures vendor == CString(VendorBuffer(r))
  {
    var buf := FillVendorBuffer(WordBytes(r.ebx), WordBytes(r.edx), WordBytes(r.ecx));
    assert VendorBytes(r) == WordBytes(r.ebx) + WordBytes(r.edx) + WordBytes(r.ecx);
    vendor := CString(buf[..]);
  }

  /** `int brandData[12]` filled by the three brand leaves, four registers each. */
  method ReadBrandWords(cpuid: Cpuid) returns (brandData: array<bv32>)
    ensures fresh(brandData)
    ensures brandData[..] == BrandWords(cpuid)
  {
    brandData := new bv32[12];
    StoreRegs(brandData, 0, Query(cpuid, 0x8000_0002));
    StoreRegs(brandData, 4, Query(cpuid, 0x8000_0003));
    StoreRegs(brandData, 8, Query(cpuid, 0x8000_0004));
  }

  /**
   * `char brand[49]`, zeroed; the three brand leaves stored in
   * `int brandData[12]`; its 48 bytes copied; leading spaces skipped; the
   * text read from there.
   */
  method ReadBrand(cpuid: Cpuid) returns (brand: seq<Byte>)
    ensures brand == CString(SkipSpaces(BrandBuffer(cpuid)))
  {
    var buf := new Byte[49](_ => NUL);
    var brandData := ReadBrandWords(cpuid);
    Memcpy(buf, 0, WordsBytes(brandData[..]));
    assert buf[..] == BrandBuffer(cpuid);
    var p := SkipLeadingSpaces(buf);
    brand := CString(buf[p..]);
  }
}
