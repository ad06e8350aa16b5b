# SIMD detection and dot-product dispatch

A Dafny model of Tesseract's architecture detector (`src/arch/simddetect.cpp`).
At start-up the detector reads the CPUID words of the processor, sets five
capability flags (`sse`, `avx`, `avx2`, `avx512F`, `avx512BW`) and binds the
global `DotProduct` slot to the best kernel the flags allow: AVX, else SSE,
else the generic one. Later, `Update` reads the `dotproduct` configuration
variable (default `"auto"`). It may rebind the slot. It then writes a canonical
label back into the variable.

The project has three modules:

- `CapabilityProbe` (`features.dfy`) has the build target, the CPUID words and
  the flag decoding `DetectedFeatures`. The decoding is checked bit by bit
  against a shift-based `Bit` reference.
- `Dispatch` (`dispatch.dfy`) has the kernels as tags, the initial choice, the
  override choice and the process state as a value. `Started` is the state after
  construction and `Updated` the state after one `Update`. The lemmas cover
  single updates, repeated updates and whole sequences of settings.
- `SimdDetect` (`detector.dfy`) has the class `Detector`, whose fields are the
  process state. Its constructor and `Update` are imperative, like the C++ code in `simddetect.cpp`.
  Each is proved to produce exactly the state that `Started` or `Updated`
  describes.

The preprocessor choice is a value of `Build`:

- `X86Gnu`: `X86_BUILD` with a GNU-compatible compiler, which includes MinGW on `_WIN32`.
- `X86Win32`: `X86_BUILD` with another `_WIN32` compiler.
- `NonX86`: any other target, and Android.

The result of the CPUID instruction is an input, `CpuidWords`. Its fields are:

- whether `__get_cpuid(1, …)` succeeded;
- leaf 0 EAX, as the C `int` that the `_WIN32` path compares;
- leaf 1 ECX;
- leaf 7 EBX.

Behaviour reproduced on purpose:

- For `"auto"`, `Update` keeps the binding but stores `"generic"`. The next
  `Update` therefore forces the generic kernel (`AutoStoresGeneric`,
  `UpdatesSettle`).
- For an unsupported value, `Update` keeps the binding, logs a warning and
  still stores `"generic"`. This includes `"avx"` and `"sse"` on a non-x86
  build.

The code prints the warning as two `tprintf` lines, so the model logs two lines
for each unsupported value. In the model, "one warning" means those two lines.

## Model

| member | source | states |
|---|---|---|
| CapabilityProbe.DetectedFeatures | src/arch/simddetect.cpp:87-116 | if the query is absent or fails, every flag is false; otherwise `sse` is ECX bit 19 and `avx` is ECX bit 28 of leaf 1; `avx2`, `avx512F` and `avx512BW` are EBX bits 5, 16 and 30 of leaf 7; the three sub-flags are set only on the GNU path and only when `avx` is set |
| Dispatch.InitialKernel | src/arch/simddetect.cpp:118-127 | the kernel chosen from the flags is one that detection may pick (generic always; SSE or AVX on x86 with its flag set), and no such kernel is preferred over it: AVX beats SSE, which beats generic |
| Dispatch.Started | src/arch/simddetect.cpp:83-128 | after construction the flags are the detected ones, the slot holds the most preferred detectable kernel (generic on a non-x86 build or when detection fails), the variable is `"auto"` and the log is empty |
| Dispatch.SupportedValues | src/arch/simddetect.cpp:133-165 | the list of values the build accepts holds exactly `auto`, `generic` and `native`, plus `avx` and `sse` on an x86 build |
| Dispatch.Select | src/arch/simddetect.cpp:133-165 | `Update` keeps the binding exactly for `"auto"`, rejects exactly the values the build does not accept, and otherwise binds the kernel whose name is the value |
| Dispatch.Label | src/arch/simddetect.cpp:133-167 | when a kernel was bound, the stored label is that kernel's token; when nothing was bound (`"auto"` or an unsupported value), it is `"generic"` |
| Dispatch.SupportedLineListsSupportedValues | src/arch/simddetect.cpp:160-164 | the second warning line lists exactly the values the build accepts, in order, separated by spaces |
| Dispatch.Updated | src/arch/simddetect.cpp:130-168 | one `Update` leaves the flags unchanged; an accepted value other than `"auto"` binds the kernel it names and is stored unchanged, while `"auto"` and unsupported values keep the slot and store `"generic"`; the stored token is always accepted, never `"auto"`, and names the bound kernel unless it is `"generic"`; the two warning lines are logged exactly when the value is unsupported |
| Dispatch.AutoStoresGeneric | src/arch/simddetect.cpp:133-139 | `"auto"` keeps the slot and logs nothing but stores `"generic"`; a second `Update` then binds the generic kernel |
| Dispatch.UnsupportedKeepsBinding | src/arch/simddetect.cpp:156-167 | an unsupported value keeps the slot, appends the warning naming the value and the list of supported values, and stores `"generic"` |
| Dispatch.ForcedKernelIgnoresFlags | src/arch/simddetect.cpp:136-154 | `"generic"` and `"native"` on any build, and `"avx"` and `"sse"` on x86, bind that kernel whatever the flags are, and the value is stored unchanged |
| Dispatch.RepeatedUpdateChangesNothing | src/arch/simddetect.cpp:130-168 | when the variable holds an accepted value other than `"auto"`, a second `Update` changes nothing |
| Dispatch.UpdatesSettle | src/arch/simddetect.cpp:130-168 | any number (at least two) of `Update` calls in a row leaves the same state as two calls |
| Dispatch.RunKeepsFlags | src/arch/simddetect.cpp:130-168 | no sequence of settings, each followed by `Update`, changes any of the five flags |
| Dispatch.RunLabelDescribesSlot | src/arch/simddetect.cpp:133-167 | after at least one setting and `Update`, the variable holds an accepted token, and it names the bound kernel unless it is `"generic"` |
| Dispatch.RunLogsTwoLinesPerUnsupportedValue | src/arch/simddetect.cpp:156-165 | over a sequence of settings the log only grows, and it grows by two lines for each unsupported value |
| SimdDetect.Detector.constructor | src/arch/simddetect.cpp:83-128 | the flags assigned step by step and the slot bound through `SetDotProduct` give exactly the `Started` state |
| SimdDetect.Detector.SetDotProduct | src/arch/simddetect.cpp:74-76 | rebinds the slot to the given kernel and changes nothing else |
| SimdDetect.Detector.SetConfig | src/arch/simddetect.cpp:54-55 | writing the configuration variable changes only that variable |
| SimdDetect.Detector.Update | src/arch/simddetect.cpp:130-168 | the if/else chain over the variable gives exactly the `Updated` state, and the flags are unchanged |
| SimdDetect.StartUp | src/arch/simddetect.cpp:83-168 | after construction and one `Update`, the flags are the detected ones; the slot holds the requested kernel when the setting was accepted and not `"auto"`, and the detected kernel otherwise; the stored label is the setting in the first case and `"generic"` otherwise; the log holds the two warning lines exactly when the setting is unsupported |

## Left out

- `DotProductGeneric` (lines 68-72) and the SSE, AVX and native kernels are left out. The generic kernel is floating-point accumulation, and the others are external code. Kernels are only tags, and calling through the slot is not modelled.
- The CPUID intrinsics (`__get_cpuid`, `__cpuid_count`, `__cpuid`) are inputs. The model does not tie the GNU success flag to the leaf 0 word. It also does not model what leaf 7 returns on a processor whose highest leaf is below 7, since the code reads leaf 7 without checking.
- The `STRING_VAR` store is a plain string field. `tprintf` is a sequence of logged lines. The parameter subsystem and the log sink are not modelled.
- `strcmp` compares C strings, which end at the first NUL. The model compares whole strings, so a value with an embedded NUL is not modelled.
- The accessors in `src/arch/simddetect.h` are not part of this model. The flags are plain fields of `Detector`.
- The unsynchronised global slot under concurrent reconfiguration is not modelled. The model is sequential.
- The `#error` branch for an x86 compiler that is neither GNU-compatible nor `_WIN32` is not modelled. It is a build failure, so `Build` has no value for it.
