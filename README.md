# NoirVisor central hypervisor and Windows invoker, in Dafny

This project models the core of NoirVisor, a hardware-accelerated hypervisor
for Windows:

- `noirhvm.dfy` (module `NoirHvm`, from `src/xpf_core/noirhvm.c`) covers:
  - the version number;
  - the vendor-id and processor brand-string readers over CPUID;
  - the virtualization-capability probe and the hypervisor-presence test;
  - the lifecycle controller. It allocates the process-wide hypervisor record (`hvm_p`), classifies the vendor, copies the driver image location into the record, and dispatches build and teardown to the Intel VT-x or AMD-V engine.
- `winhvm.dfy` (module `WinHvm`, from `src/xpf_core/windows/winhvm.c`) covers:
  - the driver image bookkeeping (`NvImageBase`, `NvImageSize`);
  - the registry query callback;
  - the status and buffer handling of the system-version query;
  - the PE section-table scan that hands every `.text` section to the code-integrity engine.
- `noir_types.dfy` (module `NoirTypes`) holds what both share:
  - the fixed-width integer types;
  - the little-endian byte layout of a 32-bit store;
  - `Splice`, which specifies a store into a buffer;
  - `Slot`, a memory cell reached through an out-pointer.

Hardware and kernel services are parameters of the model:

- The CPUID instruction is a function `cpuid: (leaf, subleaf) -> (eax, ebx, ecx, edx)`.
- The `nvc_is_*_supported` feature predicates are a `HardwareSupport` value.
- Whether the record's allocation succeeded is a boolean.
- What the engines' subvert routines return is a parameter.

The engines and the allocator's free routine are not modelled beyond the calls made to them. `Hypervisor.engineLog` records those calls in order. The global `hvm_p` is the field `Hypervisor.hvm`.

Three behaviours of the controller are modelled as the code has them:

- **Unknown vendor.** For a vendor id other than "GenuineIntel" or "AuthenticAMD", build returns `noir_insufficient_resources` but keeps the record allocated and reachable through `hvm_p`.
- **No reset after teardown.** Teardown frees the record but never resets `hvm_p`, so a second teardown frees the same record again.

- **Restore without subversion.** On an Intel processor without VT-x, build returns `noir_vmx_not_supported` but keeps the record, recorded as Intel. Teardown then calls the VT-x restore routine although nothing was subverted. An AMD processor without SVM behaves the same way with the SVM engine.

`UnknownVendorLifecycle` states the first two behaviours. `IntelWithoutVtLifecycle` and `AmdWithoutSvmLifecycle` state the third.

## Model

| member | source | states |
|---|---|---|
| NoirTypes.LeBytes | src/xpf_core/noirhvm.c:30 | the four bytes a 32-bit store through a `u32*` writes, lowest address first, load back as the stored value |
| NoirTypes.LeBytesOfFromLeBytes | src/xpf_core/noirhvm.c:30 | loading four bytes and storing the value writes the same four bytes back (the other half of the round trip) |
| NoirTypes.StoreU32 | src/xpf_core/noirhvm.c:30 | a store through `(u32*)&buf[off]` replaces bytes `off..off+4` by the value's bytes and leaves every other byte of the buffer unchanged |
| NoirTypes.SpliceAdjacent | src/xpf_core/noirhvm.c:35-37 | two stores to adjacent ranges of a buffer equal one store of their concatenation |
| NoirHvm.PackVersion | src/xpf_core/noirhvm.c:25 | shifting the major version left by 16 and OR-ing in the minor version keeps the major version in the high half and the minor version in the low half |
| NoirHvm.VisorVersion | src/xpf_core/noirhvm.c:21-26 | the version is 0x00010000: major 1, minor 0 |
| NoirHvm.VendorString | src/xpf_core/noirhvm.c:28-31 | the 12-byte vendor id of CPUID leaf 0 holds EBX at offset 0, EDX at 4 and ECX at 8 |
| NoirHvm.KnownVendorRegisters | src/xpf_core/noirhvm.c:49-55 | the leaf-0 register values of Intel and AMD processors spell "GenuineIntel" and "AuthenticAMD" in this layout |
| NoirHvm.GetVendorString | src/xpf_core/noirhvm.c:28-31 | `noir_get_vendor_string` writes exactly the 12 vendor bytes and does not write a terminator or anything past them |
| NoirHvm.ProcessorNameLayout | src/xpf_core/noirhvm.c:33-38 | leaf 80000002h+q stores its register j (EAX..EDX) at byte 16q+4j of the brand string |
| NoirHvm.StoreLeaf | src/xpf_core/noirhvm.c:35 | one `noir_cpuid` call into the brand string stores EAX, EBX, ECX and EDX as 16 consecutive bytes at the given offset and changes no other byte |
| NoirHvm.GetProcessorName | src/xpf_core/noirhvm.c:33-38 | `noir_get_processor_name` fills exactly the first 48 bytes with the brand string of leaves 80000002h-80000004h and leaves the rest of the buffer unchanged |
| NoirHvm.CStr | src/xpf_core/noirhvm.c:49 | the C string at a buffer is the prefix before its first NUL: it holds no NUL, and a NUL follows it unless the buffer ends |
| NoirHvm.CStrTerminated | src/xpf_core/noirhvm.c:84-85 | a NUL-free id followed by a NUL reads back as exactly that id |
| NoirHvm.StrEqual | src/xpf_core/noirhvm.c:85 | `strcmp(a, b) == 0`, defined as equality of the two C strings (`CStr`), the bytes before each buffer's first NUL |
| NoirHvm.Classify | src/xpf_core/noirhvm.c:85-90 | the manufacturer is Intel exactly when the buffer's C string is "GenuineIntel", AMD exactly when it is "AuthenticAMD", and unknown exactly when it is neither |
| NoirHvm.ClassifyExact | src/xpf_core/noirhvm.c:84-90 | a 12-byte id followed by a NUL is classified Intel exactly when it is "GenuineIntel", AMD exactly when it is "AuthenticAMD", and unknown exactly when it is neither |
| NoirHvm.TerminatedVendorString | src/xpf_core/noirhvm.c:47-48 | the probe's and the record's 13-byte buffer is the vendor id followed by a NUL |
| NoirHvm.SupportMask | src/xpf_core/noirhvm.c:61-63 | bit 0 of the result is the basic flag, bit 1 the SLAT flag, bit 2 the accelerated-nesting flag, and no other bit is set |
| NoirHvm.Supportability | src/xpf_core/noirhvm.c:40-65 | an unknown vendor reports 0. Intel reports VT-x, EPT and VMCS shadowing in bits 0, 1, 2; AMD reports SVM, NPT and accelerated nested SVM in bits 0, 1, 2 |
| NoirHvm.IntelWithoutShadowingIsThree | src/xpf_core/noirhvm.c:49-64 | a GenuineIntel processor with VT-x and EPT but without VMCS shadowing reports 3 |
| NoirHvm.BitTest | src/xpf_core/noirhvm.c:74 | `noir_bt`, defined as bit i of x: x / 2^i % 2 = 1. Its meaning for bit 31 is stated by `IsUnderHvm` |
| NoirHvm.IsUnderHvm | src/xpf_core/noirhvm.c:67-75 | a hypervisor is reported exactly when bit 31 of CPUID.1:ECX is set, i.e. ECX >= 80000000h |
| NoirHvm.DecideBuild | src/xpf_core/noirhvm.c:79-129 | VT-x is subverted exactly for Intel with VT-x, and SVM exactly for AMD with SVM; their results are returned. Intel without VT-x returns `noir_vmx_not_supported` and AMD without SVM returns `noir_svm_not_supported`. A failed allocation or an unknown vendor returns `noir_insufficient_resources` and calls no engine |
| NoirHvm.RestoreEngine | src/xpf_core/noirhvm.c:136-153 | teardown restores with VT-x exactly for Intel, with SVM exactly for AMD, and with no engine for an unknown vendor |
| NoirHvm.SubvertsIffBasicSupport | src/xpf_core/noirhvm.c:40-65 | with the record allocated, build starts an engine exactly when the probe's bit 0 (basic support) is set |
| NoirHvm.RestoreMatchesSubvert | src/xpf_core/noirhvm.c:92-153 | the engine teardown restores with is the engine build subverted with |
| NoirHvm.HypervisorRecord.constructor | src/xpf_core/noirhvm.c:79 | a freshly allocated record has a 13-byte vendor buffer and its own image-info cells |
| NoirHvm.Hypervisor.constructor | src/xpf_core/noirhvm.c:79 | the controller starts with no record and no engine calls |
| NoirHvm.Hypervisor.Build | src/xpf_core/noirhvm.c:77-130 | when allocation fails `hvm_p` is null. Otherwise `hvm_p` is a fresh record holding the NUL-terminated vendor id, the manufacturer classified from it, and the saved image base and size. The status and the single subvert call follow `DecideBuild`, and the record's manufacturer stays the classification of its own vendor buffer |
| NoirHvm.Hypervisor.Teardown | src/xpf_core/noirhvm.c:132-156 | with a record, teardown makes the restore call of the recorded manufacturer and then frees the record. For a valid record that manufacturer is the classification of the record's own vendor buffer, so the CPU is not probed again; without one it does nothing. Either way `hvm_p` keeps its value |
| NoirHvm.UnknownVendorLifecycle | src/xpf_core/noirhvm.c:122-129 | for an unknown vendor, build returns `noir_insufficient_resources` while `hvm_p` still holds the record. Two teardowns free that same record twice and make no restore call |
| NoirHvm.IntelWithoutVtLifecycle | src/xpf_core/noirhvm.c:96-104 | on an Intel processor without VT-x, build returns `noir_vmx_not_supported` and keeps the record. Teardown then calls the VT-x restore routine (src/xpf_core/noirhvm.c:138-141) on a system never subverted, and frees the record |
| NoirHvm.AmdWithoutSvmLifecycle | src/xpf_core/noirhvm.c:110-118 | on an AMD processor without SVM, build returns `noir_svm_not_supported` and keeps the record. Teardown then calls the SVM restore routine (src/xpf_core/noirhvm.c:143-146) on a system never subverted, and frees the record |
| NoirHvm.AllocationFailureLifecycle | src/xpf_core/noirhvm.c:79-80 | when allocation fails, build returns `noir_insufficient_resources`, `hvm_p` is null, and a later teardown calls nothing |
| NoirHvm.SubvertThenTeardown | src/xpf_core/noirhvm.c:94-154 | for a supported Intel or AMD processor, the engine is VT-x for GenuineIntel and SVM for AuthenticAMD. Build then teardown calls subvert, then restore with the same engine, then free, all on the one record |
| WinHvm.ImageInfo.constructor | src/xpf_core/windows/winhvm.c:94-101 | `NvImageBase` and `NvImageSize` start at zero |
| WinHvm.ImageInfo.SaveImageInfo | src/xpf_core/windows/winhvm.c:94-101 | a non-null driver object's start and size are saved; a null one changes nothing |
| WinHvm.ImageInfo.StoreImageInfo | src/xpf_core/windows/winhvm.c:103-107 | the saved base and size are written through each out-pointer that is not null |
| WinHvm.SaveThenStore | src/xpf_core/windows/winhvm.c:94-107 | saving a driver object and then storing the image info yields that driver's start and size |
| WinHvm.RegistrySlot | src/xpf_core/windows/winhvm.c:21-34 | a REG_SZ value goes to context buffer 0, 1 or 2 exactly when its name is "ProductName", "CSDVersion" or "CurrentBuild"; any other value goes nowhere |
| WinHvm.RegistryNamesAreCaseSensitive | src/xpf_core/windows/winhvm.c:26-30 | the names are compared case-sensitively: "productname" is ignored |
| WinHvm.CopyAsWritten | src/xpf_core/windows/winhvm.c:27-31 | the copy as written puts all ValueLength bytes at the start of the buffer and whatever memory follows it |
| WinHvm.ProductNameOverrun | src/xpf_core/windows/winhvm.c:27-40 | a 130-byte ProductName changes two bytes past the 128-byte pool buffer |
| WinHvm.CopyOverrunsCapacity | src/xpf_core/windows/winhvm.c:27-44 | for every capacity below the value's length, the copy as written puts the value's bytes from that capacity on into the memory past the buffer; this covers the 128-byte pool buffers and the 32-byte BuildNumber |
| WinHvm.BoundedCopy | src/xpf_core/windows/winhvm.c:27-31 | the bounded copy writes nothing past the buffer. The buffer starts with as much of the value as fits, and the bytes after a shorter value keep their contents |
| WinHvm.QueryRegistryRoutine | src/xpf_core/windows/winhvm.c:21-34 | the callback returns STATUS_SUCCESS. It writes the bounded copy into the buffer the value's name selects and leaves the other two buffers unchanged |
| WinHvm.GetSystemVersion | src/xpf_core/windows/winhvm.c:36-62 | if either pool allocation fails the status is STATUS_INSUFFICIENT_RESOURCES. Otherwise it is the formatting status and the registry query's status is discarded. Each allocated buffer is freed exactly once |
| WinHvm.StrnicmpEqual | src/xpf_core/windows/winhvm.c:122 | `_strnicmp(s1, s2, n) == 0`, defined from byte k on: the bytes agree after ASCII lower-casing up to and including the first NUL of `s1`, or up to byte n |
| WinHvm.IsTextSection | src/xpf_core/windows/winhvm.c:122 | `_strnicmp(Name, ".text", 8) == 0` over the 8-byte section name. Its meaning is stated by `IsTextSectionIff` |
| WinHvm.IsTextSectionIff | src/xpf_core/windows/winhvm.c:122 | `_strnicmp(name, ".text", 8) == 0` holds exactly when the name is ".text" in any letter case followed by a NUL |
| WinHvm.TextSectionExamples | src/xpf_core/windows/winhvm.c:122 | ".text$mn" and ".textbss" are not matched; ".TEXT" is |
| WinHvm.CodeRegionOf | src/xpf_core/windows/winhvm.c:124-125 | the size is SizeOfRawData. The base is ImageBase + VirtualAddress when that sum fits in 64 bits, and the sum less 2^64 when it does not |
| WinHvm.SectionRegions | src/xpf_core/windows/winhvm.c:122-127 | one section contributes at most one region: a region is in its contribution exactly when the section is `.text` and the region is its base and size |
| WinHvm.TextRegions | src/xpf_core/windows/winhvm.c:120-129 | a scan yields at most one region per section header |
| WinHvm.TextRegionsSource | src/xpf_core/windows/winhvm.c:120-129 | every region of a scan comes from a `.text` section of the table, whose index is returned |
| WinHvm.TextRegionsComplete | src/xpf_core/windows/winhvm.c:120-129 | the region of every `.text` section of the table is among the regions of the scan |
| WinHvm.TextRegionsMembers | src/xpf_core/windows/winhvm.c:120-129 | a region is handed to the code-integrity engine exactly when some `.text` section has that base (image base plus RVA) and size |
| WinHvm.TextRegionsAppend | src/xpf_core/windows/winhvm.c:120-129 | scanning two tables in turn gives the first table's regions followed by the second's, in table order |
| WinHvm.InitializeCodeIntegrity | src/xpf_core/windows/winhvm.c:109-133 | always returns FALSE. Without both the MZ and the PE signature it calls nothing; otherwise it calls `noir_initialize_ci` once per `.text` section among the first NumberOfSections headers, in order |

## Left out

- The CPUID instruction and the `nvc_is_*_supported` predicates are parameters of the model, not executed instructions. `noir_bt` is modelled by `BitTest`: bit i of x is x / 2^i % 2.
- The VT-x and SVM engines (`nvc_vt_subvert_system`, `nvc_svm_subvert_system`, `nvc_vt_restore_system`, `nvc_svm_restore_system`) are only recorded as calls. The nested-VMX state kept in `src/include/vt_hvm.h` belongs to those engines, and its code is not part of this model.
- `noir_alloc_nonpg_memory`, `noir_free_nonpg_memory`, `ExAllocatePool` and `ExFreePool` are modelled by the allocation outcome and the record of frees. A double free is recorded but not given kernel semantics. A freed record is assumed to keep its contents. A second teardown's read of `cpu_manuf` (src/xpf_core/noirhvm.c:136 after :154) is a use after free in C and is not recorded. `UnknownVendorLifecycle`'s "no restore call" on the second teardown rests on that assumption.
- Debug printing (`nv_dprintf`, `NoirDebugPrint`) is left out because it has no effect on state.
- `RtlQueryRegistryValues` is left out: which values it enumerates and the status it returns are kernel behaviour. The callback it invokes is modelled.
- `RtlStringCbPrintfW` is left out: the formatted text is not modelled, only the status it returns.
- The registry path (`RTL_REGISTRY_WINDOWS_NT` with a NULL path) is not modelled. The UTF-16 value names the callback compares (`ValueName`, src/xpf_core/windows/winhvm.c:21-30) are modelled as `string`, and the value data as bytes.
- The forwarding wrappers `NoirBuildHypervisor`, `NoirTeardownHypervisor`, `NoirVisorVersion`, `NoirGetVendorString`, `NoirGetProcessorName`, `NoirQueryVirtualizationSupportability` (src/xpf_core/windows/winhvm.c:64-92) and `NoirFinalizeCodeIntegrity` (src/xpf_core/windows/winhvm.c:135-138) are left out: each only calls the modelled operation.
- `noir_initialize_ci` is recorded as the regions handed over, not executed. `noir_finalize_ci` is left out with its only caller, `NoirFinalizeCodeIntegrity`.
- The PE headers are given as a value, so following `e_lfanew` and the pointer arithmetic to the section table is not modelled. `InitializeCodeIntegrity` requires that the section table holds NumberOfSections entries; an image whose header overstates that count makes the C code read past the table.
- Pointers are 64 bits wide, as in an x64 build. `ULONG_PTR` arithmetic (src/xpf_core/windows/winhvm.c:124) wraps at 2^64 in `CodeRegionOf`, and `DriverStart` and `hv_image.base` are 64-bit. A 32-bit build, where the sum wraps at 2^32, is not modelled.
- `noir_cpuid` is not modelled as one instruction. The order of its stores into the output buffer is taken as EAX, EBX, ECX, EDX; the resulting bytes do not depend on that order because the four targets do not overlap.
- PackVersion: covers every 16-bit major version. In C, `major` is promoted to a signed `int` before the shift, so `major<<16` is undefined behaviour for major >= 0x8000. The model gives those values the unsigned result instead. The source only packs major 1, where the shift is defined.
- `noir_get_virtualization_supportability`: its local buffer is the same `TerminatedVendorString` that build fills in the record.

## Findings

| source | as written | input that shows it | evidently intended | confidence | as-written member | corrected member |
|---|---|---|---|---|---|---|
| src/xpf_core/windows/winhvm.c:27-31 | `RtlCopyMemory(Names[k], ValueData, ValueLength)` copies the whole value into a 128-byte (ProductName, CSDVersion) or 32-byte (BuildNumber) buffer with no bound | a REG_SZ "ProductName" value of 130 bytes | the copy never writes past the destination buffer | not executed | WinHvm.CopyAsWritten, WinHvm.ProductNameOverrun, WinHvm.CopyOverrunsCapacity | WinHvm.BoundedCopy, WinHvm.QueryRegistryRoutine |
