/** The detector as the process sees it: the five static capability flags,
    the global DotProduct slot, the `dotproduct` configuration variable and
    the log, updated in place by the constructor and by Update. */
module SimdDetect {
  import opened CapabilityProbe
  import opened Dispatch

  class Detector {
    /** The build target, fixed when the program is compiled. */
    const build: Build

    var sseAvailable: bool
    var avxAvailable: bool
    var avx2Available: bool
    var avx512FAvailable: bool
    var avx512BWAvailable: bool

    /** The DotProduct slot every call site goes through. */
    var dotProduct: Kernel

    /** The `dotproduct` configuration variable. */
    var dotproductConfig: string

    /** Lines written to the diagnostic log. */
    var log: seq<string>

    /** The five flags as one value. */
    function Flags(): FeatureSet
      reads this
    {
      FeatureSet(sseAvailable, avxAvailable, avx2Available, avx512FAvailable, avx512BWAvailable)
    }

    /** The whole process state as one value. */
    function State(): Process
      reads this
    {
      Process(Flags(), dotProduct, dotproductConfig, log)
    }

    /** Detects the capabilities of the processor `cpu` reports and binds the
        best kernel for them.  The flags start out false, as statics do, and
        the configuration variable holds its default "auto". */
    constructor (build: Build, cpu: CpuidWords)
      ensures this.build == build
      ensures State() == Started(build, cpu)
    {
      this.build := build;
      sseAvailable, avxAvailable := false, false;
      avx2Available, avx512FAvailable, avx512BWAvailable := false, false, false;
      dotProduct := Generic;
      dotproductConfig := "auto";
      log := [];
      new;
      // The fallback is the generic kernel.
      SetDotProduct(Generic);
      match build {
        case X86Gnu =>
          if cpu.leaf1Supported {
            sseAvailable := cpu.leaf1Ecx & SSE_MASK != 0;
            avxAvailable := cpu.leaf1Ecx & AVX_MASK != 0;
            if avxAvailable {
              avx2Available := cpu.leaf7Ebx & AVX2_MASK != 0;
              avx512FAvailable := cpu.leaf7Ebx & AVX512F_MASK != 0;
              avx512BWAvailable := cpu.leaf7Ebx & AVX512BW_MASK != 0;
            }
          }
        case X86Win32 =>
          if cpu.leaf0Eax >= 1 {
            sseAvailable := cpu.leaf1Ecx & SSE_MASK != 0;
            avxAvailable := cpu.leaf1Ecx & AVX_MASK != 0;
          }
        case NonX86 =>
      }
      if build.IsX86() {
        if avxAvailable {
          SetDotProduct(Avx);
        } else if sseAvailable {
          SetDotProduct(Sse);
        }
      }
    }

    /** Rebinds the DotProduct slot; nothing else changes. */
    method SetDotProduct(k: Kernel)
      modifies this`dotProduct
      ensures dotProduct == k
    {
      dotProduct := k;
    }

    /** The configuration store writing `value` into `dotproduct`, as a user
        setting does before Update is called. */
    method SetConfig(value: string)
      modifies this`dotproductConfig
      ensures State() == old(State()).(config := value)
    {
      dotproductConfig := value;
    }

    /** Applies the `dotproduct` setting: binds the kernel it names, warns
        about a value the build does not support, and stores the canonical
        label back into the variable.  The flags are never touched. */
    method Update()
      modifies this`dotProduct, this`dotproductConfig, this`log
      ensures State() == Updated(old(State()), build)
      ensures Flags() == old(Flags())
    {
      var dotproductMethod := "generic";
      if dotproductConfig == "auto" {
        // Keep what detection chose.
      } else if dotproductConfig == "generic" {
        SetDotProduct(Generic);
        dotproductMethod := "generic";
        assert Select(old(dotproductConfig), build) == Bind(Generic);
      } else if dotproductConfig == "native" {
        SetDotProduct(Native);
        dotproductMethod := "native";
        assert Select(old(dotproductConfig), build) == Bind(Native);
      } else if build.IsX86() && dotproductConfig == "avx" {
        SetDotProduct(Avx);
        dotproductMethod := "avx";
        assert Select(old(dotproductConfig), build) == Bind(Avx);
      } else if build.IsX86() && dotproductConfig == "sse" {
        SetDotProduct(Sse);
        dotproductMethod := "sse";
        assert Select(old(dotproductConfig), build) == Bind(Sse);
      } else {
        log := log + [UnsupportedLine(dotproductConfig)];
        log := log + [SupportedLine(build)];
        assert Select(old(dotproductConfig), build) == Reject;
      }
      dotproductConfig := dotproductMethod;
    }
  }

  /** A start-up sequence: construct the detector, apply one setting, and
      read back what the process is left with. */
  method StartUp(build: Build, cpu: CpuidWords, setting: string)
    returns (flags: FeatureSet, kernel: Kernel, stored: string, log: seq<string>)
    ensures flags == DetectedFeatures(build, cpu)
    ensures kernel == (if Supported(setting, build) && setting != "auto"
                       then Select(setting, build).kernel
                       else InitialKernel(flags, build))
    ensures stored == (if Supported(setting, build) && setting != "auto" then setting else "generic")
    ensures log == (if Supported(setting, build) then []
                    else [UnsupportedLine(setting), SupportedLine(build)])
  {
    var d := new Detector(build, cpu);
    d.SetConfig(setting);
    d.Update();
    flags, kernel, stored, log := d.Flags(), d.dotProduct, d.dotproductConfig, d.log;
  }
}
