/**
 * The Windows invoker of NoirVisor (xpf_core/windows/winhvm.c): the driver
 * image bookkeeping, the registry query callback and the status and buffer
 * handling of the system-version query, and the scan of the driver's PE
 * section table that hands every `.text` section to the code-integrity
 * engine.
 *
 * Kernel services (pool allocation, the registry query, string formatting,
 * the code-integrity engine) are not modelled: their outcomes are
 * parameters, and the calls into the code-integrity engine are returned as
 * the sequence of regions it was given.
 */
module WinHvm {
  import opened NoirTypes

  type NtStatus = u32

  /** STATUS_SUCCESS */
  const StatusSuccess: NtStatus := 0
  /** STATUS_INSUFFICIENT_RESOURCES */
  const StatusInsufficientResources: NtStatus := 0xC000_009A
  /** REG_SZ */
  const RegSz: u32 := 1

  // ---------------------------------------------------------------------
  // Driver image information (NvImageBase / NvImageSize)

  /** The fields of DRIVER_OBJECT the driver reads. */
  datatype DriverObject = DriverObject(driverStart: u64, driverSize: u32)

  /** The globals NvImageBase and NvImageSize. */
  class ImageInfo {
    var nvImageBase: u64
    var nvImageSize: u32

    /** Globals start zeroed. */
    constructor ()
      ensures nvImageBase == 0 && nvImageSize == 0
    {
      nvImageBase := 0;
      nvImageSize := 0;
    }

    /** NoirSaveImageInfo: a null driver object changes nothing. */
    method SaveImageInfo(driverObject: Option<DriverObject>)
      modifies this
      ensures driverObject.None? ==> nvImageBase == old(nvImageBase) && nvImageSize == old(nvImageSize)
      ensures driverObject.Some? ==>
        nvImageBase == driverObject.value.driverStart && nvImageSize == driverObject.value.driverSize
    {
      if driverObject.Some? {
        nvImageBase := driverObject.value.driverStart;
        nvImageSize := driverObject.value.driverSize;
      }
    }

    /** nvc_store_image_info: writes only through the out-pointers that are not null. */
    method StoreImageInfo(base: Slot?<u64>, size: Slot?<u32>)
      modifies base, size
      ensures base != null ==> base.value == nvImageBase
      ensures size != null ==> size.value == nvImageSize
    {
      if base != null {
        base.value := nvImageBase;
      }
      if size != null {
        size.value := nvImageSize;
      }
    }
  }

  /** Saving a driver object and then storing the image info yields that driver's start and size. */
  method SaveThenStore(info: ImageInfo, driver: DriverObject, base: Slot<u64>, size: Slot<u32>)
    modifies info, base, size
    ensures base.value == driver.driverStart && size.value == driver.driverSize
  {
    info.SaveImageInfo(Some(driver));
    info.StoreImageInfo(base, size);
  }

  // ---------------------------------------------------------------------
  // Registry query callback

  /** Which of the three context buffers a registry value is copied into, if any. */
  function RegistrySlot(valueType: u32, valueName: string): (slot: Option<nat>)
    ensures slot == Some(0) <==> valueType == RegSz && valueName == "ProductName"
    ensures slot == Some(1) <==> valueType == RegSz && valueName == "CSDVersion"
    ensures slot == Some(2) <==> valueType == RegSz && valueName == "CurrentBuild"
    ensures slot.Some? ==> slot.value < 3
  {
    if valueType != RegSz then None
    else if valueName == "ProductName" then Some(0)
    else if valueName == "CSDVersion" then Some(1)
    else if valueName == "CurrentBuild" then Some(2)
    else None
  }

  /** The names are compared case-sensitively. */
  lemma RegistryNamesAreCaseSensitive()
    ensures RegistrySlot(RegSz, "productname") == None
    ensures RegistrySlot(RegSz, "CsdVersion") == None
    ensures RegistrySlot(RegSz, "currentbuild") == None
  {
  }

  /**
   * The copy as written: RtlCopyMemory of ValueLength bytes to the start of
   * `memory`, the destination buffer followed by whatever lies after it.
   */
  function CopyAsWritten(memory: seq<u8>, valueData: seq<u8>): (r: seq<u8>)
    requires |valueData| <= |memory|
    ensures |r| == |memory| && r[..|valueData|] == valueData
  {
    valueData + memory[|valueData|..]
  }

  /**
   * A 130-byte ProductName overruns the 128-byte pool buffer: the copy as
   * written changes bytes 128 and 129, which lie past the buffer.
   */
  lemma ProductNameOverrun()
    ensures var memory := seq(256, i => 0 as u8);
      var value := seq(130, i => 0x41 as u8);
      CopyAsWritten(memory, value)[128] != memory[128] &&
      CopyAsWritten(memory, value)[129] != memory[129]
  {
    var memory := seq(256, i => 0 as u8);
    var value := seq(130, i => 0x41 as u8);
    assert CopyAsWritten(memory, value)[128] == value[128];
    assert CopyAsWritten(memory, value)[129] == value[129];
  }

  /**
   * For any buffer capacity below the value's length, the copy as written
   * puts the value's bytes from `cap` on into the memory past the buffer.
   */
  lemma CopyOverrunsCapacity(memory: seq<u8>, valueData: seq<u8>, cap: nat)
    requires cap < |valueData| <= |memory|
    ensures CopyAsWritten(memory, valueData)[cap..|valueData|] == valueData[cap..]
  {
  }

  /**
   * The copy bounded by the destination buffer's capacity: nothing past the
   * buffer is written, the buffer begins with as much of the value as fits,
   * and the bytes after a shorter value keep their contents.
   */
  function BoundedCopy(dest: seq<u8>, valueData: seq<u8>): (r: seq<u8>)
    ensures |r| == |dest|
    ensures forall i :: 0 <= i < |r| && i < |valueData| ==> r[i] == valueData[i]
    ensures forall i :: |valueData| <= i < |r| ==> r[i] == dest[i]
  {
    if |valueData| <= |dest| then valueData + dest[|valueData|..] else valueData[..|dest|]
  }

  /**
   * NoirQueryRegistryRoutine, copying at most the destination's capacity.
   * `names` is the context: ProductName, CSDVersion and BuildNumber buffers.
   */
  method QueryRegistryRoutine(valueName: string, valueType: u32, valueData: seq<u8>,
                              names: seq<array<u8>>) returns (st: NtStatus)
    requires |names| == 3
    requires names[0] != names[1] && names[1] != names[2] && names[0] != names[2]
    modifies names[0], names[1], names[2]
    ensures st == StatusSuccess
    ensures forall i :: 0 <= i < 3 ==>
      names[i][..] == if RegistrySlot(valueType, valueName) == Some(i)
                      then BoundedCopy(old(names[i][..]), valueData)
                      else old(names[i][..])
  {
    var slot := RegistrySlot(valueType, valueName);
    if slot.Some? {
      var dest := names[slot.value];
      var n := if |valueData| <= dest.Length then |valueData| else dest.Length;
      forall k | 0 <= k < n {
        dest[k] := valueData[k];
      }
      assert dest[..] == BoundedCopy(old(dest[..]), valueData);
    }
    return StatusSuccess;
  }

  // ---------------------------------------------------------------------
  // System version query: status and buffer handling

  /** The two 128-byte pool buffers of NoirGetSystemVersion. */
  datatype PoolBuffer = ProductNameBuffer | CsdVersionBuffer

  /**
   * NoirGetSystemVersion: the returned status and the buffers freed, in
   * order, given the allocation outcomes and the statuses of the registry
   * query and of the formatting.
   */
  method GetSystemVersion(productNameAllocated: bool, csdVersionAllocated: bool,
                          queryStatus: NtStatus, formatStatus: NtStatus)
      returns (st: NtStatus, freed: seq<PoolBuffer>)
    ensures !(productNameAllocated && csdVersionAllocated) ==> st == StatusInsufficientResources
    ensures productNameAllocated && csdVersionAllocated ==> st == formatStatus
    ensures multiset(freed)[ProductNameBuffer] == (if productNameAllocated then 1 else 0)
    ensures multiset(freed)[CsdVersionBuffer] == (if csdVersionAllocated then 1 else 0)
  {
    st := StatusInsufficientResources;
    freed := [];
    if productNameAllocated && csdVersionAllocated {
      st := queryStatus;
      st := formatStatus;
    }
    if productNameAllocated {
      freed := freed + [ProductNameBuffer];
    }
    if csdVersionAllocated {
      freed := freed + [CsdVersionBuffer];
    }
  }

  // ---------------------------------------------------------------------
  // Code-integrity section scan

  /** IMAGE_DOS_SIGNATURE, "MZ". */
  const ImageDosSignature: u16 := 0x5A4D
  /** IMAGE_NT_SIGNATURE, "PE\0\0". */
  const ImageNtSignature: u32 := 0x0000_4550

  type SectionName = s: seq<u8> | |s| == 8 witness [0, 0, 0, 0, 0, 0, 0, 0]

  /** The fields of IMAGE_SECTION_HEADER the scan reads. */
  datatype SectionHeader = SectionHeader(name: SectionName, virtualAddress: u32, sizeOfRawData: u32)

  /**
   * The headers of a loaded image: e_magic of the MS-DOS header, Signature and
   * FileHeader.NumberOfSections of the NT headers, and the section table that
   * follows them.
   */
  datatype ImageHeaders = ImageHeaders(eMagic: u16, signature: u32, numberOfSections: u16,
                                       sectionTable: seq<SectionHeader>)

  /** The arguments of one noir_initialize_ci call. */
  datatype CodeRegion = CodeRegion(codeBase: u64, codeSize: u32)

  /** ".text", NUL-padded to the 8 bytes of a section name. */
  const TextName: SectionName := [0x2E, 0x74, 0x65, 0x78, 0x74, 0, 0, 0]

  /** ASCII tolower. */
  function ToLower(c: u8): u8
  {
    if 0x41 <= c <= 0x5A then c + 0x20 else c
  }

  /**
   * `_strnicmp(s1, s2, n) == 0`, from byte `k` on: the bytes agree ignoring
   * case up to the first NUL or byte `n`.
   */
  predicate StrnicmpEqual(s1: seq<u8>, s2: seq<u8>, k: nat, n: nat)
    requires k <= n <= |s1| && n <= |s2|
    decreases n - k
  {
    k == n ||
    (ToLower(s1[k]) == ToLower(s2[k]) && (s1[k] == 0 || StrnicmpEqual(s1, s2, k + 1, n)))
  }

  /** `_strnicmp(name, ".text", 8) == 0` */
  predicate IsTextSection(name: SectionName)
  {
    StrnicmpEqual(name, TextName, 0, |name|)
  }

  /** A name matches exactly when it is ".text" in any letter case followed by a NUL. */
  lemma IsTextSectionIff(name: SectionName)
    ensures IsTextSection(name) <==>
      name[0] == '.' as u8 &&
      (name[1] == 't' as u8 || name[1] == 'T' as u8) &&
      (name[2] == 'e' as u8 || name[2] == 'E' as u8) &&
      (name[3] == 'x' as u8 || name[3] == 'X' as u8) &&
      (name[4] == 't' as u8 || name[4] == 'T' as u8) &&
      name[5] == 0
  {
  }

  /** ".text$mn" and ".textbss" are not ".text"; ".TEXT" is. */
  lemma TextSectionExamples()
    ensures !IsTextSection([0x2E, 0x74, 0x65, 0x78, 0x74, 0x24, 0x6D, 0x6E])
    ensures !IsTextSection([0x2E, 0x74, 0x65, 0x78, 0x74, 0x62, 0x73, 0x73])
    ensures IsTextSection([0x2E, 0x54, 0x45, 0x58, 0x54, 0, 0, 0])
  {
    IsTextSectionIff([0x2E, 0x74, 0x65, 0x78, 0x74, 0x24, 0x6D, 0x6E]);
    IsTextSectionIff([0x2E, 0x74, 0x65, 0x78, 0x74, 0x62, 0x73, 0x73]);
    IsTextSectionIff([0x2E, 0x54, 0x45, 0x58, 0x54, 0, 0, 0]);
  }

  /** The region handed to the code-integrity engine for a section: base plus RVA, wrapping as a pointer does. */
  function CodeRegionOf(imageBase: u64, h: SectionHeader): (r: CodeRegion)
    ensures r.codeSize == h.sizeOfRawData
    ensures imageBase + h.virtualAddress < 0x1_0000_0000_0000_0000 ==>
      r.codeBase == imageBase + h.virtualAddress
    ensures imageBase + h.virtualAddress >= 0x1_0000_0000_0000_0000 ==>
      r.codeBase == imageBase + h.virtualAddress - 0x1_0000_0000_0000_0000
  {
    CodeRegion((imageBase + h.virtualAddress) % 0x1_0000_0000_0000_0000, h.sizeOfRawData)
  }

  /** The regions of all `.text` sections of `table`, in table order. */
  function TextRegions(imageBase: u64, table: seq<SectionHeader>): (r: seq<CodeRegion>)
    ensures |r| <= |table|
  {
    if table == [] then []
    else
      var last := table[|table| - 1];
      TextRegions(imageBase, table[..|table| - 1]) + SectionRegions(imageBase, last)
  }

  /** What one section header contributes: its region if it is a `.text` section, nothing otherwise. */
  function SectionRegions(imageBase: u64, h: SectionHeader): (r: seq<CodeRegion>)
    ensures |r| <= 1
    ensures forall region :: region in r <==> Contributes(imageBase, h, region)
  {
    if IsTextSection(h.name) then [CodeRegionOf(imageBase, h)] else []
  }

  /** Section header `h` is a `.text` section whose region is `region`. */
  predicate Contributes(imageBase: u64, h: SectionHeader, region: CodeRegion)
  {
    IsTextSection(h.name) && region == CodeRegionOf(imageBase, h)
  }

  /** Every region of a scan comes from a `.text` section of the table: the index of one is returned. */
  lemma {:induction false} TextRegionsSource(imageBase: u64, table: seq<SectionHeader>, region: CodeRegion)
      returns (i: nat)
    requires region in TextRegions(imageBase, table)
    ensures i < |table| && Contributes(imageBase, table[i], region)
  {
    var n := |table| - 1;
    var init := table[..n];
    if region in TextRegions(imageBase, init) {
      i := TextRegionsSource(imageBase, init, region);
      assert table[i] == init[i];
    } else {
      i := n;
    }
  }

  /** The region of the `.text` section at index `i` is among the regions of the scan. */
  lemma {:induction false} TextRegionsComplete(imageBase: u64, table: seq<SectionHeader>, i: nat, region: CodeRegion)
    requires i < |table| && Contributes(imageBase, table[i], region)
    ensures region in TextRegions(imageBase, table)
  {
    var n := |table| - 1;
    var init := table[..n];
    if i < n {
      assert init[i] == table[i];
      TextRegionsComplete(imageBase, init, i, region);
    } else {
      assert region in SectionRegions(imageBase, table[n]);
    }
  }

  /** Every `.text` section, and only those, contributes its region. */
  lemma TextRegionsMembers(imageBase: u64, table: seq<SectionHeader>, region: CodeRegion)
    ensures region in TextRegions(imageBase, table) <==>
      exists i :: 0 <= i < |table| && Contributes(imageBase, table[i], region)
  {
    if region in TextRegions(imageBase, table) {
      var i := TextRegionsSource(imageBase, table, region);
    }
    forall i | 0 <= i < |table| && Contributes(imageBase, table[i], region)
      ensures region in TextRegions(imageBase, table)
    {
      TextRegionsComplete(imageBase, table, i, region);
    }
  }

  /** Scanning two tables one after the other gives the regions of the first, then of the second. */
  lemma {:induction false} TextRegionsAppend(imageBase: u64, t1: seq<SectionHeader>, t2: seq<SectionHeader>)
    ensures TextRegions(imageBase, t1 + t2) == TextRegions(imageBase, t1) + TextRegions(imageBase, t2)
    decreases |t2|
  {
    if t2 != [] {
      var t2init, last := t2[..|t2| - 1], t2[|t2| - 1];
      assert (t1 + t2)[..|t1 + t2| - 1] == t1 + t2init;
      assert (t1 + t2)[|t1 + t2| - 1] == last;
      TextRegionsAppend(imageBase, t1, t2init);
      assert TextRegions(imageBase, t1 + t2)
          == TextRegions(imageBase, t1 + t2init) + SectionRegions(imageBase, last);
      assert TextRegions(imageBase, t2) == TextRegions(imageBase, t2init) + SectionRegions(imageBase, last);
    } else {
      assert t1 + t2 == t1;
    }
  }

  predicate HasValidSignatures(image: ImageHeaders)
  {
    image.eMagic == ImageDosSignature && image.signature == ImageNtSignature
  }

  /**
   * NoirInitializeCodeIntegrity: returns FALSE, and the noir_initialize_ci
   * calls it makes, in order.
   */
  method InitializeCodeIntegrity(imageBase: u64, image: ImageHeaders)
      returns (result: bool, ciCalls: seq<CodeRegion>)
    requires HasValidSignatures(image) ==> image.numberOfSections as int <= |image.sectionTable|
    ensures !result
    ensures !HasValidSignatures(image) ==> ciCalls == []
    ensures HasValidSignatures(image) ==>
      ciCalls == TextRegions(imageBase, image.sectionTable[..image.numberOfSections])
  {
    ciCalls := [];
    if image.eMagic == ImageDosSignature {
      if image.signature == ImageNtSignature {
        var numberOfSections := image.numberOfSections as int;
        var i := 0;
        while i < numberOfSections
          invariant i <= numberOfSections
          invariant ciCalls == TextRegions(imageBase, image.sectionTable[..i])
        {
          var header := image.sectionTable[i];
          assert image.sectionTable[..i + 1][..i] == image.sectionTable[..i];
          if IsTextSection(header.name) {
            ciCalls := ciCalls + [CodeRegionOf(imageBase, header)];
          }
          i := i + 1;
        }
      }
    }
    return false, ciCalls;
  }
}
