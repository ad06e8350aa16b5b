/** Kernel selection: the initial choice made from the detected flags, the
    override chosen by the `dotproduct` configuration value, and the
    process state (flags, dot-product slot, configuration value, log) that
    the detector's constructor and Update transform.

    The kernels themselves are external code; they appear only as tags. */
module Dispatch {
  import opened CapabilityProbe

  /** The dot-product implementations the slot can be bound to. */
  datatype Kernel = Generic | Sse | Avx | Native

  /** Whether detection may pick k: the generic kernel always, SSE or AVX on an
      x86 build whose flag is set.  The native kernel is only ever requested. */
  predicate Detectable(k: Kernel, f: FeatureSet, build: Build) {
    match k
    case Generic => true
    case Sse => build.IsX86() && f.sse
    case Avx => build.IsX86() && f.avx
    case Native => false
  }

  /** How much detection prefers a kernel: AVX over SSE over generic. */
  function Preference(k: Kernel): nat {
    match k
    case Generic => 0
    case Sse => 1
    case Avx => 2
    case Native => 0
  }

  /** The kernel the constructor binds: the most preferred detectable one. */
  function InitialKernel(f: FeatureSet, build: Build): (k: Kernel)
    ensures Detectable(k, f, build)
    ensures forall other :: Detectable(other, f, build) ==> Preference(other) <= Preference(k)
  {
    if build.IsX86() && f.avx then Avx
    else if build.IsX86() && f.sse then Sse
    else Generic
  }

  /** The configuration token naming each kernel. */
  function KernelName(k: Kernel): (name: string)
    ensures name != "auto"
  {
    match k
    case Generic => "generic"
    case Sse => "sse"
    case Avx => "avx"
    case Native => "native"
  }

  /** Whether a build accepts a value of `dotproduct`: "auto", "generic" and
      "native" everywhere, "avx" and "sse" only on x86. */
  predicate Supported(value: string, build: Build) {
    value == "auto" || value == "generic" || value == "native"
    || (build.IsX86() && (value == "avx" || value == "sse"))
  }

  /** The values a build accepts, in the order the warning lists them. */
  function SupportedValues(build: Build): (vs: seq<string>)
    ensures forall v :: v in vs <==> Supported(v, build)
  {
    ["auto", "generic", "native"] + if build.IsX86() then ["avx", "sse"] else []
  }

  /** What Update does with a configuration value: keep the binding ("auto"),
      bind a kernel, or reject the value with a warning. */
  datatype Action = Keep | Bind(kernel: Kernel) | Reject

  /** The action Update takes for a configuration value. */
  function Select(value: string, build: Build): (a: Action)
    ensures a.Keep? <==> value == "auto"
    ensures a.Reject? <==> !Supported(value, build)
    ensures a.Bind? ==> KernelName(a.kernel) == value
  {
    if value == "auto" then Keep
    else if value == "generic" then Bind(Generic)
    else if value == "native" then Bind(Native)
    else if build.IsX86() && value == "avx" then Bind(Avx)
    else if build.IsX86() && value == "sse" then Bind(Sse)
    else Reject
  }

  /** The canonical label Update stores back: the name of the kernel it bound,
      and "generic" whenever it bound nothing. */
  function Label(a: Action): (stored: string)
    ensures a.Bind? ==> stored == KernelName(a.kernel)
    ensures !a.Bind? ==> stored == "generic"
  {
    match a
    case Bind(k) => KernelName(k)
    case _ => "generic"
  }

  /** The first line of the warning for an unsupported value. */
  function UnsupportedLine(value: string): string {
    "Warning, ignoring unsupported config variable value: dotproduct=" + value + "\n"
  }

  /** The second line of the warning, as the build spells it out. */
  function SupportedLine(build: Build): string {
    "Support values for dotproduct: " + "auto generic native"
    + (if build.IsX86() then " avx sse" else "")
    + ".\n"
  }

  /** Words separated by single spaces. */
  function JoinWords(ws: seq<string>): string {
    if |ws| == 0 then ""
    else if |ws| == 1 then ws[0]
    else ws[0] + " " + JoinWords(ws[1..])
  }

  /** The warning lists exactly the values the build accepts, in order. */
  lemma SupportedLineListsSupportedValues(build: Build)
    ensures SupportedLine(build)
            == "Support values for dotproduct: " + JoinWords(SupportedValues(build)) + ".\n"
  {
    var vs := SupportedValues(build);
    var extra := if build.IsX86() then " avx sse" else "";
    assert vs[1..][1..] == vs[2..];
    if build.IsX86() {
      assert vs[2..][1..] == vs[3..] && vs[3..][1..] == vs[4..] == ["sse"];
      assert JoinWords(vs[3..]) == "avx" + " " + "sse";
      assert JoinWords(vs[2..]) == "native" + " " + ("avx" + " " + "sse");
    } else {
      assert vs[2..] == ["native"];
    }
    calc {
      JoinWords(vs);
      "auto" + " " + JoinWords(vs[1..]);
      "auto" + " " + ("generic" + " " + JoinWords(vs[2..]));
      { assert JoinWords(vs[2..]) == "native" + extra; }
      "auto" + " " + ("generic" + " " + ("native" + extra));
      "auto generic native" + extra;
    }
  }

  /** The process-wide state: the five flags, the DotProduct slot, the
      `dotproduct` configuration variable and the lines written to the log. */
  datatype Process = Process(flags: FeatureSet, slot: Kernel, config: string, log: seq<string>)

  /** The state once the detector has been constructed: the configuration
      variable holds its default "auto" and nothing has been logged. */
  function Started(build: Build, cpu: CpuidWords): (p: Process)
    ensures p.flags == DetectedFeatures(build, cpu)
    ensures Detectable(p.slot, p.flags, build)
    ensures forall k :: Detectable(k, p.flags, build) ==> Preference(k) <= Preference(p.slot)
    ensures p.config == "auto" && p.log == []
  {
    var f := DetectedFeatures(build, cpu);
    Process(f, InitialKernel(f, build), "auto", [])
  }

  /** The state after one call of Update. */
  function Updated(p: Process, build: Build): (q: Process)
    // the flags are never touched
    ensures q.flags == p.flags
    // an accepted value other than "auto" binds the kernel it names and is
    // stored as it is ...
    ensures Supported(p.config, build) && p.config != "auto" ==>
      KernelName(q.slot) == p.config && q.config == p.config
    // ... while "auto" and unsupported values keep the slot and store "generic"
    ensures !Supported(p.config, build) || p.config == "auto" ==>
      q.slot == p.slot && q.config == "generic"
    // so the stored value is always an accepted token other than "auto" ...
    ensures Supported(q.config, build) && q.config != "auto"
    // ... and it names the bound kernel unless it is "generic"
    ensures q.config == "generic" || q.config == KernelName(q.slot)
    // two lines are logged for an unsupported value, none otherwise
    ensures q.log == if Supported(p.config, build) then p.log
                     else p.log + [UnsupportedLine(p.config), SupportedLine(build)]
  {
    var a := Select(p.config, build);
    Process(p.flags,
            if a.Bind? then a.kernel else p.slot,
            Label(a),
            if a.Reject? then p.log + [UnsupportedLine(p.config), SupportedLine(build)] else p.log)
  }

  /** "auto" keeps the detected kernel yet stores "generic", so that the next
      Update forces the generic kernel. */
  lemma AutoStoresGeneric(p: Process, build: Build)
    requires p.config == "auto"
    ensures Updated(p, build).slot == p.slot
    ensures Updated(p, build).config == "generic"
    ensures Updated(p, build).log == p.log
    ensures Updated(Updated(p, build), build).slot == Generic
  {
  }

  /** An unsupported value (including "avx" or "sse" off x86) keeps the
      binding, logs the warning naming it, and still stores "generic". */
  lemma UnsupportedKeepsBinding(p: Process, build: Build)
    requires !Supported(p.config, build)
    ensures Updated(p, build).slot == p.slot
    ensures Updated(p, build).config == "generic"
    ensures Updated(p, build).log == p.log + [UnsupportedLine(p.config), SupportedLine(build)]
  {
  }

  /** A forced kernel is bound whatever the flags say. */
  lemma ForcedKernelIgnoresFlags(p: Process, build: Build, k: Kernel)
    requires p.config == KernelName(k)
    requires k.Generic? || k.Native? || build.IsX86()
    ensures Updated(p, build).slot == k
    ensures Updated(p, build).config == p.config
  {
  }

  /** Updating again with the value just stored changes nothing when that
      value bound a kernel. */
  lemma RepeatedUpdateChangesNothing(p: Process, build: Build)
    requires Supported(p.config, build) && p.config != "auto"
    ensures Updated(Updated(p, build), build) == Updated(p, build)
  {
  }

  /** f applied n times to x. */
  function Iterate<T>(f: T -> T, x: T, n: nat): T {
    if n == 0 then x else f(Iterate(f, x, n - 1))
  }

  /** Once the second application reaches a fixed point, all later ones stay there. */
  lemma {:induction false} IterateFromFixedPoint<T>(f: T -> T, x: T, n: nat)
    requires n >= 2
    requires f(Iterate(f, x, 2)) == Iterate(f, x, 2)
    ensures Iterate(f, x, n) == Iterate(f, x, 2)
  {
    if n > 2 {
      IterateFromFixedPoint(f, x, n - 1);
    }
  }

  /** n calls of Update in a row, with no new value set in between. */
  function UpdatedTimes(p: Process, build: Build, n: nat): Process {
    Iterate(q => Updated(q, build), p, n)
  }

  /** The state two Updates leave is a fixed point of Update. */
  lemma TwoUpdatesReachFixedPoint(p: Process, build: Build)
    ensures Updated(UpdatedTimes(p, build, 2), build) == UpdatedTimes(p, build, 2)
  {
    var once := Updated(p, build);
    assert UpdatedTimes(p, build, 2) == Updated(once, build);
    RepeatedUpdateChangesNothing(once, build);
  }

  /** Repeated Updates settle after the second: the first stores a canonical
      label, the second applies it, and from then on nothing changes. */
  lemma UpdatesSettle(p: Process, build: Build, n: nat)
    requires n >= 2
    ensures UpdatedTimes(p, build, n) == UpdatedTimes(p, build, 2)
  {
    TwoUpdatesReachFixedPoint(p, build);
    IterateFromFixedPoint(q => Updated(q, build), p, n);
  }

  /** Starting from p, set the configuration variable to each value in turn and
      call Update after each. */
  function Run(p: Process, build: Build, values: seq<string>): Process
    decreases |values|
  {
    if values == [] then p
    else Run(Updated(p.(config := values[0]), build), build, values[1..])
  }

  /** How many of the values a build rejects. */
  function Unsupported(values: seq<string>, build: Build): nat {
    if values == [] then 0
    else (if Supported(values[0], build) then 0 else 1) + Unsupported(values[1..], build)
  }

  /** However the configuration is set and updated, the flags never change. */
  lemma {:induction false} RunKeepsFlags(p: Process, build: Build, values: seq<string>)
    ensures Run(p, build, values).flags == p.flags
    decreases |values|
  {
    if values != [] {
      RunKeepsFlags(Updated(p.(config := values[0]), build), build, values[1..]);
    }
  }

  /** After any Update the stored value is an accepted token, and it names the
      bound kernel unless it is "generic". */
  lemma {:induction false} RunLabelDescribesSlot(p: Process, build: Build, values: seq<string>)
    requires values != []
    ensures Supported(Run(p, build, values).config, build)
    ensures Run(p, build, values).config == "generic"
            || Run(p, build, values).config == KernelName(Run(p, build, values).slot)
    decreases |values|
  {
    if |values| > 1 {
      RunLabelDescribesSlot(Updated(p.(config := values[0]), build), build, values[1..]);
    }
  }

  /** Each rejected value adds the two warning lines, and nothing else is logged. */
  lemma {:induction false} RunLogsTwoLinesPerUnsupportedValue(p: Process, build: Build, values: seq<string>)
    ensures p.log <= Run(p, build, values).log
    ensures |Run(p, build, values).log| == |p.log| + 2 * Unsupported(values, build)
    decreases |values|
  {
    if values != [] {
      var next := Updated(p.(config := values[0]), build);
      assert p.log <= next.log;
      assert |next.log| == |p.log| + if Supported(values[0], build) then 0 else 2;
      RunLogsTwoLinesPerUnsupportedValue(next, build, values[1..]);
    }
  }
}
