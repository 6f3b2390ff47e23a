/**
 * The step-by-step code both front ends share, written once: the signature
 * decode on local variables and the physical-core estimate.
 */
module Probe {
  import opened Registers
  import opened Text
  import opened Decoder
  import Buffers

  /**
   * The fields of leaf 1 EAX taken apart in `int` locals, then the family
   * and, after it, the model updated in place.
   */
  method ReadSignature(cpuid: Cpuid) returns (s: Signature)
    ensures s == DecodeSignature(Query(cpuid, 1).eax)
  {
    var eax := Query(cpuid, 1).eax;
    var stepping := Stepping(eax);
    var model := BaseModel(eax);
    var family := BaseFamily(eax);
    var kind := ProcessorType(eax);
    var extModel := ExtModel(eax);
    var extFamily := ExtFamily(eax);
    if family == 0xF {
      family := family + extFamily;
    }
    assert family == Family(eax);
    if family == 0x6 || family == 0xF {
      model := model + (extModel << 4);
    }
    s := Signature(family, model, stepping, kind);
  }

  /**
   * `physicalCores` starts as the logical count converted to `int` and is
   * replaced by the leaf 4 count for an Intel vendor with leaf 4, else by
   * the leaf 0x80000008 count for an AMD vendor with that leaf.
   */
  method ApproxPhysicalCores(cpuid: Cpuid, logicalCount: bv32) returns (physicalCores: int)
    ensures physicalCores == PhysicalCores(cpuid, logicalCount)
  {
    var maxBasic := AsInt32(Query(cpuid, 0).eax);
    var maxExt := Query(cpuid, 0x8000_0000).eax;
    var vendor := Buffers.ReadVendor(Query(cpuid, 0));
    var vendorStr := Chars(vendor);
    assert vendorStr == VendorText(cpuid);
    physicalCores := AsInt32(logicalCount);
    if IntelTest(vendorStr, maxBasic) {
      physicalCores := IntelCores(cpuid(4, 0));
    } else if AmdTest(vendorStr, maxExt) {
      physicalCores := AmdCores(Query(cpuid, 0x8000_0008));
    }
  }
}
