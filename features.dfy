/** Feature decoding: how the detector turns the words returned by the
    CPUID instruction into the five SIMD capability flags.

    The instruction itself is not modelled; its results are inputs. */
module CapabilityProbe {

  /** The build target as the preprocessor decides it.  X86_BUILD holds for
      x86-64, i386 and _WIN32 targets unless ANDROID_BUILD is set (those are
      NonX86 here).  On an x86 build a GNU-compatible compiler (GCC, clang,
      MinGW) queries CPUID through <cpuid.h>; otherwise a _WIN32 compiler
      uses <intrin.h>. */
  datatype Build = NonX86 | X86Gnu | X86Win32 {
    predicate IsX86() { this != NonX86 }
  }

  /** A C int. */
  newtype int32 = x: int | -0x8000_0000 <= x < 0x8000_0000

  /** What the CPUID queries return on the executing processor. */
  datatype CpuidWords = CpuidWords(
    leaf1Supported: bool, // the GNU intrinsic __get_cpuid(1, ...) returned non-zero
    leaf0Eax: int32,      // leaf 0 EAX, the highest basic leaf, as the C int the _WIN32 path reads
    leaf1Ecx: bv32,       // leaf 1 ECX
    leaf7Ebx: bv32)       // leaf 7, sub-leaf 0, EBX

  /** The detector's capability flags. */
  datatype FeatureSet = FeatureSet(sse: bool, avx: bool, avx2: bool, avx512F: bool, avx512BW: bool)

  /** The flags are statics and start out false. */
  const NO_FEATURES := FeatureSet(false, false, false, false, false)

  // Masks tested by the detector, written in hex as simddetect.cpp writes them.
  const SSE_MASK: bv32 := 0x0008_0000       // leaf 1 ECX
  const AVX_MASK: bv32 := 0x1000_0000       // leaf 1 ECX
  const AVX2_MASK: bv32 := 0x0000_0020      // leaf 7 EBX
  const AVX512F_MASK: bv32 := 0x0001_0000   // leaf 7 EBX
  const AVX512BW_MASK: bv32 := 0x4000_0000  // leaf 7 EBX

  /** Bit number i of w, by shifting: the reference the masks are checked against. */
  predicate Bit(w: bv32, i: nat)
    requires i < 32
  {
    (w >> i) & 1 == 1
  }

  /** Whether the build reads CPUID leaf 1 at all: never off x86; on GNU when
      __get_cpuid succeeds; on _WIN32 when the highest basic leaf is at least 1. */
  predicate Leaf1Read(build: Build, cpu: CpuidWords) {
    match build
    case NonX86 => false
    case X86Gnu => cpu.leaf1Supported
    case X86Win32 => cpu.leaf0Eax >= 1
  }

  /** The flags the detector ends up with, given the build and the processor. */
  function DetectedFeatures(build: Build, cpu: CpuidWords): (f: FeatureSet)
    // a failed or absent query leaves every flag false
    ensures !Leaf1Read(build, cpu) ==> f == NO_FEATURES
    // leaf 1 ECX: SSE is bit 19 and AVX is bit 28
    ensures Leaf1Read(build, cpu) ==> f.sse == Bit(cpu.leaf1Ecx, 19) && f.avx == Bit(cpu.leaf1Ecx, 28)
    // the sub-flags are only ever set on the GNU path, and only once AVX is set
    ensures f.avx2 || f.avx512F || f.avx512BW ==> f.avx && build == X86Gnu
    // leaf 7 EBX: AVX2 is bit 5, AVX-512F bit 16, AVX-512BW bit 30
    ensures build == X86Gnu && f.avx ==>
      f.avx2 == Bit(cpu.leaf7Ebx, 5) && f.avx512F == Bit(cpu.leaf7Ebx, 16) && f.avx512BW == Bit(cpu.leaf7Ebx, 30)
  {
    if !Leaf1Read(build, cpu) then NO_FEATURES
    else
      var sse := cpu.leaf1Ecx & SSE_MASK != 0;
      var avx := cpu.leaf1Ecx & AVX_MASK != 0;
      if build == X86Gnu && avx then
        FeatureSet(sse, avx,
                   cpu.leaf7Ebx & AVX2_MASK != 0,
                   cpu.leaf7Ebx & AVX512F_MASK != 0,
                   cpu.leaf7Ebx & AVX512BW_MASK != 0)
      else
        FeatureSet(sse, avx, false, false, false)
  }
}
