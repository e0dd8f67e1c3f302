/**
 * The central hypervisor of NoirVisor (xpf_core/noirhvm.c): the version
 * number, the capability probe over CPUID outputs, vendor classification,
 * and the process-wide lifecycle controller that allocates the hypervisor
 * record and dispatches build and teardown to the vendor's engine.
 *
 * The CPUID instruction is the parameter `cpuid`, the `nvc_is_*_supported`
 * predicates are a `HardwareSupport` value, and the engines' subvert results
 * are parameters. Calls into the engines and into the allocator's free
 * routine are recorded, in order, in `Hypervisor.engineLog`.
 */
module NoirHvm {
  import opened NoirTypes
  import WinHvm

  /** The four outputs of one CPUID leaf (noir_vt_cpuid_info). */
  datatype CpuidResult = CpuidResult(eax: u32, ebx: u32, ecx: u32, edx: u32)

  /** The CPUID instruction: (leaf, subleaf) to its four outputs. */
  type Cpuid = (u32, u32) -> CpuidResult

  /** The results of the hardware feature predicates nvc_is_*_supported. */
  datatype HardwareSupport = HardwareSupport(
    vt: bool, ept: bool, vmcsShadowing: bool,
    svm: bool, npt: bool, acnestedSvm: bool)

  datatype Manufacturer = UnknownProcessor | IntelProcessor | AmdProcessor

  /**
   * noir_status values the controller produces itself; any other status an
   * engine reports is `EngineStatus`.
   */
  datatype NoirStatus = InsufficientResources | VmxNotSupported | SvmNotSupported | EngineStatus(code: u32)

  // ---------------------------------------------------------------------
  // Version

  /** `major<<16|minor` of two 16-bit halves. */
  function PackVersion(major: u16, minor: u16): (v: u32)
    ensures v / 0x1_0000 == major
    ensures v % 0x1_0000 == minor
  {
    major * 0x1_0000 + minor
  }

  /** noir_visor_version: version 1.0. */
  function VisorVersion(): (v: u32)
    ensures v == 0x0001_0000
    ensures v / 0x1_0000 == 1 && v % 0x1_0000 == 0
  {
    PackVersion(1, 0)
  }

  // ---------------------------------------------------------------------
  // Vendor string and processor name

  /** "GenuineIntel" in ASCII. */
  const GenuineIntel: seq<u8> := [0x47, 0x65, 0x6E, 0x75, 0x69, 0x6E, 0x65, 0x49, 0x6E, 0x74, 0x65, 0x6C]
  /** "AuthenticAMD" in ASCII. */
  const AuthenticAmd: seq<u8> := [0x41, 0x75, 0x74, 0x68, 0x65, 0x6E, 0x74, 0x69, 0x63, 0x41, 0x4D, 0x44]

  /** The 12-byte vendor id of CPUID leaf 0: EBX, then EDX, then ECX. */
  function VendorString(leaf0: CpuidResult): (s: seq<u8>)
    ensures |s| == 12
    ensures FromLeBytes(s[0..4]) == leaf0.ebx
    ensures FromLeBytes(s[4..8]) == leaf0.edx
    ensures FromLeBytes(s[8..12]) == leaf0.ecx
  {
    var s := LeBytes(leaf0.ebx) + LeBytes(leaf0.edx) + LeBytes(leaf0.ecx);
    assert s[0..4] == LeBytes(leaf0.ebx) && s[4..8] == LeBytes(leaf0.edx) && s[8..12] == LeBytes(leaf0.ecx);
    s
  }

  /** The register values an Intel and an AMD processor report in leaf 0 spell their vendor ids. */
  lemma KnownVendorRegisters(eax: u32)
    ensures VendorString(CpuidResult(eax, 0x756E_6547, 0x6C65_746E, 0x4965_6E69)) == GenuineIntel
    ensures VendorString(CpuidResult(eax, 0x6874_7541, 0x444D_4163, 0x6974_6E65)) == AuthenticAmd
  {
    assert LeBytes(0x756E_6547) == [0x47, 0x65, 0x6E, 0x75];
    assert LeBytes(0x4965_6E69) == [0x69, 0x6E, 0x65, 0x49];
    assert LeBytes(0x6C65_746E) == [0x6E, 0x74, 0x65, 0x6C];
    assert LeBytes(0x6874_7541) == [0x41, 0x75, 0x74, 0x68];
    assert LeBytes(0x6974_6E65) == [0x65, 0x6E, 0x74, 0x69];
    assert LeBytes(0x444D_4163) == [0x63, 0x41, 0x4D, 0x44];
  }

  /** noir_get_vendor_string: writes the 12 vendor bytes and nothing else (no terminator). */
  method GetVendorString(cpuid: Cpuid, vendorString: array<u8>)
    requires vendorString.Length >= 12
    modifies vendorString
    ensures vendorString[..12] == VendorString(cpuid(0, 0))
    ensures vendorString[12..] == old(vendorString[12..])
  {
    var leaf := cpuid(0, 0);
    StoreU32(vendorString, 0, leaf.ebx);
    StoreU32(vendorString, 8, leaf.ecx);
    StoreU32(vendorString, 4, leaf.edx);
    assert vendorString[..12] == VendorString(leaf) by {
      forall i | 0 <= i < 12
        ensures vendorString[..12][i] == VendorString(leaf)[i]
      {
        assert vendorString[..12][i] == vendorString[..][i];
        assert VendorString(leaf)[i] == (LeBytes(leaf.ebx) + LeBytes(leaf.edx) + LeBytes(leaf.ecx))[i];
      }
    }
  }

  /** The four outputs of a leaf in register order EAX, EBX, ECX, EDX. */
  function Register(r: CpuidResult, j: nat): u32
    requires j < 4
  {
    if j == 0 then r.eax else if j == 1 then r.ebx else if j == 2 then r.ecx else r.edx
  }

  /** The 16 bytes one leaf contributes to the processor brand string. */
  function LeafBytes(r: CpuidResult): (b: seq<u8>)
    ensures |b| == 16
  {
    LeBytes(r.eax) + LeBytes(r.ebx) + LeBytes(r.ecx) + LeBytes(r.edx)
  }

  /** The 48-byte processor brand string of leaves 80000002h, 80000003h and 80000004h. */
  function ProcessorName(cpuid: Cpuid): (s: seq<u8>)
    ensures |s| == 48
  {
    LeafBytes(cpuid(0x8000_0002, 0)) + LeafBytes(cpuid(0x8000_0003, 0)) + LeafBytes(cpuid(0x8000_0004, 0))
  }

  /**
   * Leaf 80000002h + `q` stores register `j` (EAX, EBX, ECX, EDX for
   * j = 0..3) at offset 16 * q + 4 * j of the brand string.
   */
  lemma ProcessorNameLayout(cpuid: Cpuid, q: nat, j: nat)
    requires q < 3 && j < 4
    ensures FromLeBytes(ProcessorName(cpuid)[16 * q + 4 * j..16 * q + 4 * j + 4])
         == Register(cpuid(0x8000_0002 + q, 0), j)
  {
    var leaf := cpuid(0x8000_0002 + q, 0);
    var name := ProcessorName(cpuid);
    var off := 16 * q;
    NameLeaf(cpuid, q);
    LeafWord(leaf, j);
    SliceOfSlice(name, off, off + 16, 4 * j, 4 * j + 4);
    var w := LeBytes(Register(leaf, j));
    assert name[off + 4 * j..off + 4 * j + 4] == w;
    assert FromLeBytes(w) == Register(leaf, j);
  }

  /** A slice of a slice is a slice of the whole. */
  lemma SliceOfSlice(s: seq<u8>, a: nat, b: nat, c: nat, d: nat)
    requires a <= b <= |s| && c <= d <= b - a
    ensures s[a..b][c..d] == s[a + c..a + d]
  {
    forall i | 0 <= i < d - c
      ensures s[a..b][c..d][i] == s[a + c..a + d][i]
    {
      assert s[a..b][c..d][i] == s[a..b][c + i] == s[a + c + i];
    }
  }

  /** Leaf 80000002h + `q` fills bytes `16 * q .. 16 * q + 16` of the brand string. */
  lemma NameLeaf(cpuid: Cpuid, q: nat)
    requires q < 3
    ensures ProcessorName(cpuid)[16 * q..16 * q + 16] == LeafBytes(cpuid(0x8000_0002 + q, 0))
  {
    var a, b, c := LeafBytes(cpuid(0x8000_0002, 0)), LeafBytes(cpuid(0x8000_0003, 0)), LeafBytes(cpuid(0x8000_0004, 0));
    assert ProcessorName(cpuid) == a + b + c;
    if q == 0 {
      assert (a + b + c)[0..16] == a;
    } else if q == 1 {
      assert (a + b + c)[16..32] == b;
    } else {
      assert (a + b + c)[32..48] == c;
    }
  }

  /** Register `j` of a leaf fills bytes `4 * j .. 4 * j + 4` of its 16 bytes. */
  lemma LeafWord(r: CpuidResult, j: nat)
    requires j < 4
    ensures LeafBytes(r)[4 * j..4 * j + 4] == LeBytes(Register(r, j))
  {
    var a, b, c, d := LeBytes(r.eax), LeBytes(r.ebx), LeBytes(r.ecx), LeBytes(r.edx);
    assert LeafBytes(r) == a + b + c + d;
    if j == 0 {
      assert (a + b + c + d)[0..4] == a;
    } else if j == 1 {
      assert (a + b + c + d)[4..8] == b;
    } else if j == 2 {
      assert (a + b + c + d)[8..12] == c;
    } else {
      assert (a + b + c + d)[12..16] == d;
    }
  }

  /** The four stores of one CPUID leaf to consecutive words at `off`. */
  method StoreLeaf(buf: array<u8>, off: nat, leaf: CpuidResult)
    requires off + 16 <= buf.Length
    modifies buf
    ensures buf[..] == Splice(old(buf[..]), off, LeafBytes(leaf))
  {
    ghost var s := buf[..];
    StoreU32(buf, off, leaf.eax);
    StoreU32(buf, off + 4, leaf.ebx);
    StoreU32(buf, off + 8, leaf.ecx);
    StoreU32(buf, off + 12, leaf.edx);
    var a, b, c, d := LeBytes(leaf.eax), LeBytes(leaf.ebx), LeBytes(leaf.ecx), LeBytes(leaf.edx);
    SpliceAdjacent(s, off, a, b);
    SpliceAdjacent(s, off, a + b, c);
    SpliceAdjacent(s, off, a + b + c, d);
  }

  /** noir_get_processor_name: fills exactly the first 48 bytes. */
  method GetProcessorName(cpuid: Cpuid, processorName: array<u8>)
    requires processorName.Length >= 48
    modifies processorName
    ensures processorName[..48] == ProcessorName(cpuid)
    ensures processorName[48..] == old(processorName[48..])
  {
    ghost var s := processorName[..];
    var l2 := cpuid(0x8000_0002, 0);
    StoreLeaf(processorName, 0x00, l2);
    var l3 := cpuid(0x8000_0003, 0);
    StoreLeaf(processorName, 0x10, l3);
    var l4 := cpuid(0x8000_0004, 0);
    StoreLeaf(processorName, 0x20, l4);
    SpliceAdjacent(s, 0, LeafBytes(l2), LeafBytes(l3));
    SpliceAdjacent(s, 0, LeafBytes(l2) + LeafBytes(l3), LeafBytes(l4));
    assert processorName[..] == Splice(s, 0, ProcessorName(cpuid));
    assert processorName[..48] == processorName[..][0..48];
    assert processorName[48..] == processorName[..][48..];
  }

  // ---------------------------------------------------------------------
  // Vendor classification (strcmp on NUL-terminated buffers)

  /** The C string that starts at `s`: the bytes before the first NUL. */
  function CStr(s: seq<u8>): (r: seq<u8>)
    ensures |r| <= |s| && r == s[..|r|]
    ensures forall i :: 0 <= i < |r| ==> r[i] != 0
    ensures |r| < |s| ==> s[|r|] == 0
  {
    if s == [] || s[0] == 0 then [] else [s[0]] + CStr(s[1..])
  }

  /** `strcmp(a, b) == 0`. */
  predicate StrEqual(a: seq<u8>, b: seq<u8>)
  {
    CStr(a) == CStr(b)
  }

  /** A string without NUL bytes, once terminated, reads back as itself. */
  lemma {:induction false} CStrTerminated(s: seq<u8>)
    requires forall i :: 0 <= i < |s| ==> s[i] != 0
    ensures CStr(s + [0]) == s
  {
    assert (s + [0])[|s|] == 0;
  }

  /** The classification of a NUL-terminated vendor id buffer, as nvc_build_hypervisor does it. */
  function Classify(vendorString: seq<u8>): (m: Manufacturer)
    ensures m == IntelProcessor <==> CStr(vendorString) == GenuineIntel
    ensures m == AmdProcessor <==> CStr(vendorString) == AuthenticAmd
    ensures m == UnknownProcessor <==> CStr(vendorString) != GenuineIntel && CStr(vendorString) != AuthenticAmd
  {
    CStrTerminated(GenuineIntel);
    CStrTerminated(AuthenticAmd);
    if StrEqual(vendorString, GenuineIntel + [0]) then IntelProcessor
    else if StrEqual(vendorString, AuthenticAmd + [0]) then AmdProcessor
    else UnknownProcessor
  }

  /** Exactly "GenuineIntel" is Intel, exactly "AuthenticAMD" is AMD, every other id is unknown. */
  lemma ClassifyExact(v: seq<u8>)
    requires |v| == 12
    ensures Classify(v + [0]) == IntelProcessor <==> v == GenuineIntel
    ensures Classify(v + [0]) == AmdProcessor <==> v == AuthenticAmd
    ensures Classify(v + [0]) == UnknownProcessor <==> v != GenuineIntel && v != AuthenticAmd
  {
    CStrTerminated(GenuineIntel);
    CStrTerminated(AuthenticAmd);
    var r := CStr(v + [0]);
    if r == GenuineIntel || r == AuthenticAmd {
      assert r == (v + [0])[..12] == v;
    }
    if v == GenuineIntel || v == AuthenticAmd {
      CStrTerminated(v);
    }
  }

  /** The 13-byte buffer nvc_build_hypervisor and the probe fill from leaf 0. */
  function TerminatedVendorString(leaf0: CpuidResult): (s: seq<u8>)
    ensures |s| == 13 && s[12] == 0 && s[..12] == VendorString(leaf0)
  {
    VendorString(leaf0) + [0]
  }

  function VendorOf(cpuid: Cpuid): Manufacturer
  {
    Classify(TerminatedVendorString(cpuid(0, 0)))
  }

  // ---------------------------------------------------------------------
  // Capability probe

  /** noir_bt: bit `i` of `x` is set. */
  predicate BitTest(x: u32, i: nat)
    requires i < 32
  {
    x / Pow2(i) % 2 == 1
  }

  /** `basic<<0 | slat<<1 | acnest<<2`. */
  function SupportMask(basic: bool, slat: bool, acnest: bool): (r: u32)
    ensures r < 8
    ensures BitTest(r, 0) == basic && BitTest(r, 1) == slat && BitTest(r, 2) == acnest
  {
    (if basic then 1 else 0) + 2 * (if slat then 1 else 0) + 4 * (if acnest then 1 else 0)
  }

  /** noir_get_virtualization_supportability. */
  function Supportability(cpuid: Cpuid, hw: HardwareSupport): (r: u32)
    ensures r < 8
    ensures VendorOf(cpuid) == UnknownProcessor ==> r == 0
    ensures VendorOf(cpuid) == IntelProcessor ==>
      BitTest(r, 0) == hw.vt && BitTest(r, 1) == hw.ept && BitTest(r, 2) == hw.vmcsShadowing
    ensures VendorOf(cpuid) == AmdProcessor ==>
      BitTest(r, 0) == hw.svm && BitTest(r, 1) == hw.npt && BitTest(r, 2) == hw.acnestedSvm
  {
    var vstr := TerminatedVendorString(cpuid(0, 0));
    if StrEqual(vstr, GenuineIntel + [0]) then
      SupportMask(hw.vt, hw.ept, hw.vmcsShadowing)
    else if StrEqual(vstr, AuthenticAmd + [0]) then
      SupportMask(hw.svm, hw.npt, hw.acnestedSvm)
    else
      SupportMask(false, false, false)
  }

  /** An Intel processor with VT-x and EPT but no VMCS shadowing reports 3. */
  lemma IntelWithoutShadowingIsThree(cpuid: Cpuid, hw: HardwareSupport)
    requires VendorString(cpuid(0, 0)) == GenuineIntel
    requires hw.vt && hw.ept && !hw.vmcsShadowing
    ensures Supportability(cpuid, hw) == 3
  {
    ClassifyExact(VendorString(cpuid(0, 0)));
  }

  /** noir_is_under_hvm: bit 31 of CPUID.1:ECX. */
  function IsUnderHvm(cpuid: Cpuid): (r: bool)
    ensures r <==> cpuid(1, 0).ecx >= 0x8000_0000
  {
    Pow2Of31();
    BitTest(cpuid(1, 0).ecx, 31)
  }

  // ---------------------------------------------------------------------
  // Lifecycle controller

  datatype Engine = VtEngine | SvmEngine

  /** What nvc_build_hypervisor returns and which engine's subvert routine it calls. */
  datatype BuildDecision = BuildDecision(status: NoirStatus, subvert: Option<Engine>)

  /** The dispatch table of nvc_build_hypervisor. */
  function DecideBuild(allocOk: bool, manuf: Manufacturer, hw: HardwareSupport,
                       vtResult: NoirStatus, svmResult: NoirStatus): (d: BuildDecision)
    ensures d.subvert == Some(VtEngine) <==> allocOk && manuf == IntelProcessor && hw.vt
    ensures d.subvert == Some(SvmEngine) <==> allocOk && manuf == AmdProcessor && hw.svm
    ensures d.subvert == Some(VtEngine) ==> d.status == vtResult
    ensures d.subvert == Some(SvmEngine) ==> d.status == svmResult
    ensures d.subvert.None? && allocOk && manuf == IntelProcessor ==> d.status == VmxNotSupported
    ensures d.subvert.None? && allocOk && manuf == AmdProcessor ==> d.status == SvmNotSupported
    ensures !allocOk || manuf == UnknownProcessor ==> d == BuildDecision(InsufficientResources, None)
  {
    if !allocOk then BuildDecision(InsufficientResources, None)
    else match manuf
      case IntelProcessor =>
        if hw.vt then BuildDecision(vtResult, Some(VtEngine)) else BuildDecision(VmxNotSupported, None)
      case AmdProcessor =>
        if hw.svm then BuildDecision(svmResult, Some(SvmEngine)) else BuildDecision(SvmNotSupported, None)
      case UnknownProcessor =>
        BuildDecision(InsufficientResources, None)
  }

  /** The restore routine nvc_teardown_hypervisor calls, chosen by the recorded manufacturer alone. */
  function RestoreEngine(manuf: Manufacturer): (e: Option<Engine>)
    ensures e == Some(VtEngine) <==> manuf == IntelProcessor
    ensures e == Some(SvmEngine) <==> manuf == AmdProcessor
    ensures e == None <==> manuf == UnknownProcessor
  {
    match manuf
    case IntelProcessor => Some(VtEngine)
    case AmdProcessor => Some(SvmEngine)
    case UnknownProcessor => None
  }

  /**
   * With the record allocated, build starts an engine exactly when the
   * capability probe reports basic virtualization support (bit 0).
   */
  lemma SubvertsIffBasicSupport(cpuid: Cpuid, hw: HardwareSupport, vtResult: NoirStatus, svmResult: NoirStatus)
    ensures DecideBuild(true, VendorOf(cpuid), hw, vtResult, svmResult).subvert.Some?
        <==> BitTest(Supportability(cpuid, hw), 0)
  {
  }

  /** Teardown restores with the engine that build subverted with. */
  lemma RestoreMatchesSubvert(manuf: Manufacturer, hw: HardwareSupport, vtResult: NoirStatus, svmResult: NoirStatus)
    ensures var d := DecideBuild(true, manuf, hw, vtResult, svmResult);
      d.subvert.Some? ==> RestoreEngine(manuf) == d.subvert
  {
  }

  /** noir_hypervisor: the process-wide hypervisor record. */
  class HypervisorRecord {
    const vendorString: array<u8>
    var cpuManuf: Manufacturer
    /** hv_image.base and hv_image.size. */
    const hvImageBase: Slot<u64>
    const hvImageSize: Slot<u32>

    /** A freshly allocated record; its contents are filled by the caller. */
    constructor ()
      ensures fresh(vendorString) && vendorString.Length == 13
      ensures fresh(hvImageBase) && fresh(hvImageSize)
    {
      vendorString := new u8[13];
      cpuManuf := UnknownProcessor;
      hvImageBase := new Slot(0);
      hvImageSize := new Slot(0);
    }
  }

  /** A call the controller makes into an engine or into the allocator's free routine. */
  datatype EngineCall =
    | SubvertSystem(engine: Engine, rec: HypervisorRecord)
    | RestoreSystem(engine: Engine, rec: HypervisorRecord)
    | FreeNonpgMemory(rec: HypervisorRecord)

  function SubvertCalls(e: Option<Engine>, rec: HypervisorRecord): (calls: seq<EngineCall>)
  {
    if e.Some? then [SubvertSystem(e.value, rec)] else []
  }

  function RestoreCalls(e: Option<Engine>, rec: HypervisorRecord): (calls: seq<EngineCall>)
  {
    if e.Some? then [RestoreSystem(e.value, rec)] else []
  }

  /** The global `hvm_p` and the driver-wide state the controller uses. */
  class Hypervisor {
    /** hvm_p */
    var hvm: HypervisorRecord?
    /** Engine and free calls made so far, oldest first. */
    var engineLog: seq<EngineCall>
    /** NvImageBase / NvImageSize of the platform layer. */
    const imageInfo: WinHvm.ImageInfo

    /** The record, while it exists, classifies its own NUL-terminated vendor id. */
    ghost predicate Valid()
      reads this, hvm, if hvm != null then {hvm.vendorString} else {}
    {
      hvm != null ==>
        hvm.vendorString.Length == 13 && hvm.vendorString[12] == 0 &&
        hvm.cpuManuf == Classify(hvm.vendorString[..])
    }

    constructor (imageInfo: WinHvm.ImageInfo)
      ensures Valid()
      ensures hvm == null && engineLog == [] && this.imageInfo == imageInfo
    {
      hvm := null;
      engineLog := [];
      this.imageInfo := imageInfo;
    }

    /**
     * nvc_build_hypervisor. `allocOk` is the outcome of the record's
     * allocation; `vtResult` and `svmResult` are what the engines' subvert
     * routines return if called.
     */
    method Build(cpuid: Cpuid, hw: HardwareSupport, allocOk: bool,
                 vtResult: NoirStatus, svmResult: NoirStatus) returns (st: NoirStatus)
      modifies this
      ensures Valid()
      ensures !allocOk ==> hvm == null
      ensures allocOk ==>
        hvm != null && fresh(hvm) &&
        hvm.vendorString[..] == TerminatedVendorString(cpuid(0, 0)) &&
        hvm.cpuManuf == VendorOf(cpuid) &&
        hvm.hvImageBase.value == imageInfo.nvImageBase &&
        hvm.hvImageSize.value == imageInfo.nvImageSize
      ensures var d := DecideBuild(allocOk, VendorOf(cpuid), hw, vtResult, svmResult);
        st == d.status &&
        engineLog == old(engineLog) + (if allocOk then SubvertCalls(d.subvert, hvm) else [])
    {
      if !allocOk {
        hvm := null;
        return InsufficientResources;
      }
      var rec := new HypervisorRecord();
      hvm := rec;
      GetVendorString(cpuid, rec.vendorString);
      rec.vendorString[12] := 0;
      assert rec.vendorString[..] == rec.vendorString[..12] + rec.vendorString[12..];
      if StrEqual(rec.vendorString[..], GenuineIntel + [0]) {
        rec.cpuManuf := IntelProcessor;
      } else if StrEqual(rec.vendorString[..], AuthenticAmd + [0]) {
        rec.cpuManuf := AmdProcessor;
      } else {
        rec.cpuManuf := UnknownProcessor;
      }
      imageInfo.StoreImageInfo(rec.hvImageBase, rec.hvImageSize);
      match rec.cpuManuf {
        case IntelProcessor =>
          if hw.vt {
            engineLog := engineLog + [SubvertSystem(VtEngine, rec)];
            return vtResult;
          } else {
            return VmxNotSupported;
          }
        case AmdProcessor =>
          if hw.svm {
            engineLog := engineLog + [SubvertSystem(SvmEngine, rec)];
            return svmResult;
          } else {
            return SvmNotSupported;
          }
        case UnknownProcessor =>
      }
      return InsufficientResources;
    }

    /** nvc_teardown_hypervisor: restores by the recorded manufacturer, frees, and leaves `hvm_p` as it was. */
    method Teardown()
      modifies this
      ensures hvm == old(hvm) && Valid() == old(Valid())
      ensures old(hvm) == null ==> engineLog == old(engineLog)
      ensures old(hvm) != null ==>
        engineLog == old(engineLog) + RestoreCalls(RestoreEngine(hvm.cpuManuf), hvm) + [FreeNonpgMemory(hvm)]
      ensures old(Valid()) && old(hvm) != null ==>
        engineLog == old(engineLog) + RestoreCalls(RestoreEngine(Classify(hvm.vendorString[..])), hvm)
                     + [FreeNonpgMemory(hvm)]
    {
      if hvm != null {
        match hvm.cpuManuf {
          case IntelProcessor =>
            engineLog := engineLog + [RestoreSystem(VtEngine, hvm)];
          case AmdProcessor =>
            engineLog := engineLog + [RestoreSystem(SvmEngine, hvm)];
          case UnknownProcessor =>
        }
        engineLog := engineLog + [FreeNonpgMemory(hvm)];
      }
    }
  }

  /**
   * An unknown vendor: build fails with InsufficientResources yet keeps the
   * record, teardown frees it without any restore, and a second teardown
   * frees the same record again because `hvm_p` is never reset.
   */
  method UnknownVendorLifecycle(cpuid: Cpuid, hw: HardwareSupport, imageInfo: WinHvm.ImageInfo,
                                vtResult: NoirStatus, svmResult: NoirStatus)
      returns (hv: Hypervisor, st: NoirStatus)
    requires VendorString(cpuid(0, 0)) != GenuineIntel && VendorString(cpuid(0, 0)) != AuthenticAmd
    ensures st == InsufficientResources && hv.hvm != null
    ensures hv.engineLog == [FreeNonpgMemory(hv.hvm), FreeNonpgMemory(hv.hvm)]
  {
    ClassifyExact(VendorString(cpuid(0, 0)));
    hv := new Hypervisor(imageInfo);
    st := hv.Build(cpuid, hw, true, vtResult, svmResult);
    hv.Teardown();
    hv.Teardown();
  }

  /**
   * A GenuineIntel processor without VT-x: build returns
   * noir_vmx_not_supported yet keeps the record as Intel, and teardown then
   * restores with the VT-x engine although nothing was subverted.
   */
  method IntelWithoutVtLifecycle(cpuid: Cpuid, hw: HardwareSupport, imageInfo: WinHvm.ImageInfo,
                                 vtResult: NoirStatus, svmResult: NoirStatus)
      returns (hv: Hypervisor, st: NoirStatus)
    requires VendorString(cpuid(0, 0)) == GenuineIntel && !hw.vt
    ensures st == VmxNotSupported && hv.hvm != null
    ensures hv.engineLog == [RestoreSystem(VtEngine, hv.hvm), FreeNonpgMemory(hv.hvm)]
  {
    ClassifyExact(VendorString(cpuid(0, 0)));
    hv := new Hypervisor(imageInfo);
    st := hv.Build(cpuid, hw, true, vtResult, svmResult);
    hv.Teardown();
  }

  /**
   * An AuthenticAMD processor without SVM: build returns
   * noir_svm_not_supported yet keeps the record as AMD, and teardown then
   * restores with the SVM engine although nothing was subverted.
   */
  method AmdWithoutSvmLifecycle(cpuid: Cpuid, hw: HardwareSupport, imageInfo: WinHvm.ImageInfo,
                                vtResult: NoirStatus, svmResult: NoirStatus)
      returns (hv: Hypervisor, st: NoirStatus)
    requires VendorString(cpuid(0, 0)) == AuthenticAmd && !hw.svm
    ensures st == SvmNotSupported && hv.hvm != null
    ensures hv.engineLog == [RestoreSystem(SvmEngine, hv.hvm), FreeNonpgMemory(hv.hvm)]
  {
    ClassifyExact(VendorString(cpuid(0, 0)));
    hv := new Hypervisor(imageInfo);
    st := hv.Build(cpuid, hw, true, vtResult, svmResult);
    hv.Teardown();
  }

  /** A failed allocation: build reports InsufficientResources, and teardown afterwards does nothing. */
  method AllocationFailureLifecycle(cpuid: Cpuid, hw: HardwareSupport, imageInfo: WinHvm.ImageInfo,
                                    vtResult: NoirStatus, svmResult: NoirStatus)
      returns (hv: Hypervisor, st: NoirStatus)
    ensures st == InsufficientResources && hv.hvm == null && hv.engineLog == []
  {
    hv := new Hypervisor(imageInfo);
    st := hv.Build(cpuid, hw, false, vtResult, svmResult);
    hv.Teardown();
  }

  /**
   * A successful subversion followed by teardown: subvert, restore with the
   * same engine, then free the record, which `hvm_p` still points at.
   */
  method SubvertThenTeardown(cpuid: Cpuid, hw: HardwareSupport, imageInfo: WinHvm.ImageInfo,
                             vtResult: NoirStatus, svmResult: NoirStatus)
      returns (hv: Hypervisor, st: NoirStatus, e: Engine)
    requires VendorString(cpuid(0, 0)) == GenuineIntel ==> hw.vt
    requires VendorString(cpuid(0, 0)) == AuthenticAmd ==> hw.svm
    requires VendorString(cpuid(0, 0)) == GenuineIntel || VendorString(cpuid(0, 0)) == AuthenticAmd
    ensures e == (if VendorString(cpuid(0, 0)) == GenuineIntel then VtEngine else SvmEngine)
    ensures e == VtEngine ==> st == vtResult
    ensures e == SvmEngine ==> st == svmResult
    ensures hv.hvm != null
    ensures hv.engineLog == [SubvertSystem(e, hv.hvm), RestoreSystem(e, hv.hvm), FreeNonpgMemory(hv.hvm)]
  {
    ClassifyExact(VendorString(cpuid(0, 0)));
    hv := new Hypervisor(imageInfo);
    st := hv.Build(cpuid, hw, true, vtResult, svmResult);
    e := if VendorOf(cpuid) == IntelProcessor then VtEngine else SvmEngine;
    hv.Teardown();
  }
}
