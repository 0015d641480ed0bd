/**
 * The timing collector written by `DetailedTimer` and the on/off state of
 * `AdvancedProfiler` in the chunk-size benchmark.
 */
module BenchTiming {
  import opened Wrappers

  /** `collector` with one more sample under `name`, the list created when absent. */
  function Appended(collector: map<string, seq<real>>, name: string, elapsed: real): (r: map<string, seq<real>>)
    ensures r.Keys == collector.Keys + {name}
    ensures r[name] == (if name in collector then collector[name] else []) + [elapsed]
    ensures forall k :: k in collector && k != name ==> r[k] == collector[k]
  {
    collector[name := (if name in collector then collector[name] else []) + [elapsed]]
  }

  /** Number of samples recorded under `name`. */
  function SampleCount(collector: map<string, seq<real>>, name: string): nat {
    if name in collector then |collector[name]| else 0
  }

  /** Recording adds exactly one sample under its own name and none under any other. */
  lemma AppendedCounts(collector: map<string, seq<real>>, name: string, elapsed: real, other: string)
    ensures SampleCount(Appended(collector, name, elapsed), name) == SampleCount(collector, name) + 1
    ensures other != name ==> SampleCount(Appended(collector, name, elapsed), other) == SampleCount(collector, other)
  {
  }

  /** The `detailed_timings` dictionary: a list of elapsed seconds per timer name. */
  class TimingCollector {
    var samples: map<string, seq<real>>

    constructor ()
      ensures samples == map[]
    {
      samples := map[];
    }

    /**
     * `DetailedTimer.__exit__`. Python runs it whether or not the timed body
     * raised, so a failing body still leaves its sample here.
     */
    method Record(name: string, elapsed: real)
      modifies this
      ensures samples == Appended(old(samples), name, elapsed)
    {
      if name !in samples {
        samples := samples[name := []];
      }
      samples := samples[name := samples[name] + [elapsed]];
    }
  }

  /** Which profiling backends could be imported. */
  datatype ProfilerCaps = ProfilerCaps(pyinstrument: bool, lineProfiler: bool)

  const Pyinstrument: string := "pyinstrument"
  const LineProfiler: string := "line_profiler"
  const LineProfilerPlaceholder: string := "Line profiler requires function decoration - use pyinstrument instead"

  /** Whether `start` switches a profiler of this type on. */
  predicate StartsActive(profilerType: string, caps: ProfilerCaps) {
    (profilerType == Pyinstrument && caps.pyinstrument)
    || (profilerType == LineProfiler && caps.lineProfiler)
  }

  /**
   * `AdvancedProfiler`. `hasProfiler` stands for `self.profiler is not None`;
   * the backend's own report is an input of `Stop`.
   */
  class AdvancedProfiler {
    const profilerType: string
    var hasProfiler: bool
    var active: bool

    constructor (profilerType: string)
      ensures this.profilerType == profilerType && !hasProfiler && !active
    {
      this.profilerType := profilerType;
      hasProfiler := false;
      active := false;
    }

    /** `start`: on only for an available pyinstrument or line_profiler backend. */
    method Start(caps: ProfilerCaps)
      modifies this
      ensures active == StartsActive(profilerType, caps)
      ensures hasProfiler == (old(hasProfiler) || active)
    {
      if profilerType == Pyinstrument && caps.pyinstrument {
        hasProfiler := true;
        active := true;
      } else if profilerType == LineProfiler && caps.lineProfiler {
        hasProfiler := true;
        active := true;
      } else {
        active := false;
      }
    }

    /**
     * `stop`: nothing unless running; the backend's text for pyinstrument, a
     * fixed placeholder for line_profiler. It does not switch `active` off.
     */
    method Stop(report: string) returns (output: Option<string>)
      ensures !(active && hasProfiler) ==> output == None
      ensures active && hasProfiler && profilerType == Pyinstrument ==> output == Some(report)
      ensures active && hasProfiler && profilerType == LineProfiler ==> output == Some(LineProfilerPlaceholder)
      ensures profilerType != Pyinstrument && profilerType != LineProfiler ==> output == None
    {
      if !active || !hasProfiler {
        return None;
      }
      if profilerType == Pyinstrument {
        return Some(report);
      } else if profilerType == LineProfiler {
        return Some(LineProfilerPlaceholder);
      }
      return None;
    }

    /**
     * `save_html_report`: only a running pyinstrument profiler writes a
     * report; a failed write is swallowed and reported as `false`.
     */
    method SaveHtmlReport(writeSucceeds: bool) returns (saved: bool)
      ensures saved <==> profilerType == Pyinstrument && hasProfiler && active && writeSucceeds
    {
      if profilerType == Pyinstrument && hasProfiler && active {
        saved := writeSucceeds;
      } else {
        saved := false;
      }
    }
  }

  /** The text a profiler started with `caps` and then stopped yields. */
  function ProfileOutput(profilerType: string, caps: ProfilerCaps, report: string): (r: Option<string>)
    ensures r.Some? <==> StartsActive(profilerType, caps)
  {
    if !StartsActive(profilerType, caps) then None
    else if profilerType == Pyinstrument then Some(report)
    else Some(LineProfilerPlaceholder)
  }

  /** A fresh profiler, started and stopped, returns exactly `ProfileOutput`. */
  method StartThenStop(profilerType: string, caps: ProfilerCaps, report: string) returns (output: Option<string>)
    ensures output == ProfileOutput(profilerType, caps, report)
  {
    var p := new AdvancedProfiler(profilerType);
    p.Start(caps);
    output := p.Stop(report);
  }
}
