/**
 * The pre-flight checks of `amgctl k8s preflight` (tools/amgctl/cmd/k8s.go)
 * and `amgctl minikube preflight` (tools/amgctl/cmd/minikube.go): which tools
 * are on the PATH, and whether the `nvidia_peermem` kernel module is loaded.
 * The two files differ only in the list of required tools.
 */
module ClusterPreflight {
  import opened Wrappers
  import opened Strings

  // ---------------------------------------------------------------------
  // Tool classification
  // ---------------------------------------------------------------------

  const K8sRequiredTools: seq<string> := ["kubectl", "kubeadm", "nvidia-smi", "nvidia-ctk", "docker"]
  const MinikubeRequiredTools: seq<string> := ["kubectl", "kubeadm", "nvidia-smi", "nvidia-ctk", "docker", "minikube"]
  const OptionalTools: seq<string> := ["helm"]

  /** Minikube requires the Kubernetes tools and minikube itself; helm is optional for both. */
  lemma MinikubeToolsExtendK8s()
    ensures MinikubeRequiredTools == K8sRequiredTools + ["minikube"]
    ensures "helm" !in K8sRequiredTools && "helm" !in MinikubeRequiredTools
  {
  }

  /** The tools of `tools` that `exec.LookPath` does not find (`onPath` is what it finds), in order. */
  function Missing(tools: seq<string>, onPath: set<string>): (r: seq<string>)
    ensures |r| <= |tools|
    decreases |tools|
  {
    if |tools| == 0 then []
    else Missing(tools[..|tools| - 1], onPath) + (if tools[|tools| - 1] in onPath then [] else [tools[|tools| - 1]])
  }

  /** A tool is reported missing exactly when it is listed and not on the PATH. */
  lemma {:induction false} MissingIff(tools: seq<string>, onPath: set<string>)
    ensures forall t :: t in Missing(tools, onPath) <==> t in tools && t !in onPath
    decreases |tools|
  {
    if |tools| > 0 {
      var init := tools[..|tools| - 1];
      MissingIff(init, onPath);
      assert tools == init + [tools[|tools| - 1]];
    }
  }

  /** Nothing is missing exactly when every listed tool is on the PATH. */
  lemma MissingNone(tools: seq<string>, onPath: set<string>)
    ensures |Missing(tools, onPath)| == 0 <==> forall i :: 0 <= i < |tools| ==> tools[i] in onPath
  {
    MissingIff(tools, onPath);
    if |Missing(tools, onPath)| > 0 {
      assert Missing(tools, onPath)[0] in Missing(tools, onPath);
    }
  }

  /** The missing tools keep the declared order: missing from a concatenation is the concatenation of what is missing. */
  lemma {:induction false} MissingConcat(a: seq<string>, b: seq<string>, onPath: set<string>)
    ensures Missing(a + b, onPath) == Missing(a, onPath) + Missing(b, onPath)
    decreases |b|
  {
    if |b| > 0 {
      var init := b[..|b| - 1];
      MissingConcat(a, init, onPath);
      assert (a + b)[..|a + b| - 1] == a + init;
      assert (a + b)[|a + b| - 1] == b[|b| - 1];
      AppendAssoc(Missing(a, onPath), Missing(init, onPath),
                  if b[|b| - 1] in onPath then [] else [b[|b| - 1]]);
    } else {
      assert a + b == a;
    }
  }

  /** The loop over one tool list, appending each tool that is not found. */
  method MissingTools(tools: seq<string>, onPath: set<string>) returns (missing: seq<string>)
    ensures missing == Missing(tools, onPath)
  {
    missing := [];
    var i := 0;
    while i < |tools|
      invariant 0 <= i <= |tools|
      invariant missing == Missing(tools[..i], onPath)
    {
      assert tools[..i + 1][..i] == tools[..i];
      if tools[i] !in onPath {
        missing := missing + [tools[i]];
      }
      i := i + 1;
    }
    PrefixAll(tools);
  }

  // ---------------------------------------------------------------------
  // The nvidia_peermem module
  // ---------------------------------------------------------------------

  const PeermemModule: string := "nvidia_peermem"

  /** A `/proc/modules` line names the module as its first field. */
  predicate NamesModule(line: string, name: string) {
    HasPrefix(line, name + " ") || HasPrefix(line, name + "\t")
  }

  /** The module is loaded when some line of `/proc/modules` names it. */
  predicate Loaded(procModules: string, name: string) {
    exists i :: 0 <= i < |Split(procModules, '\n')| && NamesModule(Split(procModules, '\n')[i], name)
  }

  /** `checkKernelModuleLoaded`: what reading `/proc/modules` gave is the input `procModules`. */
  function LoadedCheck(procModules: Result<string>, name: string): (r: Outcome)
    ensures r.Pass? <==> procModules.Ok? && Loaded(procModules.value, name)
  {
    if procModules.Err? then Fail("failed to read /proc/modules: " + procModules.error)
    else if Loaded(procModules.value, name) then Pass
    else Fail("module not loaded")
  }

  /** The scan of `/proc/modules`, stopping at the first line that names the module. */
  method CheckModuleLoaded(procModules: Result<string>, name: string) returns (r: Outcome)
    ensures r == LoadedCheck(procModules, name)
  {
    if procModules.Err? {
      return Fail("failed to read /proc/modules: " + procModules.error);
    }
    var lines := Split(procModules.value, '\n');
    var i := 0;
    while i < |lines|
      invariant 0 <= i <= |lines|
      invariant forall k :: 0 <= k < i ==> !NamesModule(lines[k], name)
    {
      if HasPrefix(lines[i], name + " ") || HasPrefix(lines[i], name + "\t") {
        return Pass;
      }
      i := i + 1;
    }
    r := Fail("module not loaded");
  }

  /** A line names the module only if the module name is followed by a space or a tab. */
  lemma NamesModuleExactly(line: string, name: string)
    ensures NamesModule(line, name) <==>
      |line| > |name| && line[..|name|] == name && (line[|name|] == ' ' || line[|name|] == '\t')
  {
    if |line| > |name| && line[..|name|] == name {
      if line[|name|] == ' ' {
        assert line[..|name| + 1] == name + " ";
      } else if line[|name|] == '\t' {
        assert line[..|name| + 1] == name + "\t";
      }
    }
    if HasPrefix(line, name + " ") {
      assert (name + " ")[..|name|] == name;
    }
    if HasPrefix(line, name + "\t") {
      assert (name + "\t")[..|name|] == name;
    }
  }

  /** `checkKernelModuleExists`: `modinfo` failing, or printing nothing, means no such module. */
  function ExistsCheck(modinfo: Result<string>): (r: Outcome)
    ensures r.Pass? <==> modinfo.Ok? && modinfo.value != ""
  {
    if modinfo.Err? then Fail("module not found")
    else if |modinfo.value| == 0 then Fail("module exists but modinfo returned no information")
    else Pass
  }

  const PeermemNotFound: string := "nvidia_peermem module not found. Please install the nvidia_peermem module"
  const PeermemNotLoaded: string :=
    "nvidia_peermem module found but not loaded. Please load it with: sudo modprobe nvidia_peermem"

  /** `checkNvidiaPeermemModule`: loaded, else not found or found but not loaded, as `modinfo` tells. */
  function PeermemCheck(procModules: Result<string>, modinfo: Result<string>): Outcome
  {
    if LoadedCheck(procModules, PeermemModule).Pass? then Pass
    else if ExistsCheck(modinfo).Fail? then Fail(PeermemNotFound)
    else Fail(PeermemNotLoaded)
  }

  /**
   * The module check passes exactly when the module is loaded; otherwise it
   * reports "not found" exactly when `modinfo` fails or prints nothing, and
   * "found but not loaded" when it describes the module.
   */
  lemma PeermemCheckCases(procModules: Result<string>, modinfo: Result<string>)
    ensures var r := PeermemCheck(procModules, modinfo);
      (r.Pass? <==> procModules.Ok? && Loaded(procModules.value, PeermemModule))
      && (r.Fail? ==>
            (r.error == PeermemNotFound <==> modinfo.Err? || modinfo.value == "")
            && (r.error == PeermemNotLoaded <==> modinfo.Ok? && modinfo.value != ""))
  {
    if PeermemCheck(procModules, modinfo).Fail? {
      assert |PeermemNotFound| != |PeermemNotLoaded|;
    }
  }

  // ---------------------------------------------------------------------
  // The whole pre-flight
  // ---------------------------------------------------------------------

  /** What one pre-flight reports: both missing lists (the optional one as a warning) and the verdict. */
  datatype Report = Report(missingRequired: seq<string>, missingOptional: seq<string>, outcome: Outcome)

  /** `fmt`'s `%v` of a list of strings: the elements between brackets, separated by spaces. */
  function ListString(xs: seq<string>): string {
    "[" + Join(xs, " ") + "]"
  }

  /** The pre-flight for one required-tool list. */
  function Preflight(required: seq<string>, onPath: set<string>, procModules: Result<string>,
                     modinfo: Result<string>): Report
  {
    var missingRequired := Missing(required, onPath);
    var missingOptional := Missing(OptionalTools, onPath);
    var outcome :=
      if |missingRequired| > 0 then Fail("missing required tools: " + ListString(missingRequired))
      else if PeermemCheck(procModules, modinfo).Fail? then
        Fail("nvidia_peermem module check failed: " + PeermemCheck(procModules, modinfo).error)
      else Pass;
    Report(missingRequired, missingOptional, outcome)
  }

  /** `runK8sPreFlight` and `runMinikubePreFlight`: both tool loops, the verdict on required tools, then the module check. */
  method RunPreflight(required: seq<string>, onPath: set<string>, procModules: Result<string>, modinfo: Result<string>)
    returns (report: Report)
    ensures report == Preflight(required, onPath, procModules, modinfo)
  {
    var missingRequired := MissingTools(required, onPath);
    var missingOptional := MissingTools(OptionalTools, onPath);
    if |missingRequired| > 0 {
      return Report(missingRequired, missingOptional, Fail("missing required tools: " + ListString(missingRequired)));
    }
    var loaded := CheckModuleLoaded(procModules, PeermemModule);
    var peermem: Outcome;
    if loaded.Pass? {
      peermem := Pass;
    } else if ExistsCheck(modinfo).Fail? {
      peermem := Fail(PeermemNotFound);
    } else {
      peermem := Fail(PeermemNotLoaded);
    }
    if peermem.Fail? {
      return Report(missingRequired, missingOptional, Fail("nvidia_peermem module check failed: " + peermem.error));
    }
    report := Report(missingRequired, missingOptional, Pass);
  }

  /**
   * The pre-flight passes exactly when every required tool is found and the
   * module is loaded; a missing required tool fails it before the module is
   * looked at.
   */
  lemma PreflightPasses(required: seq<string>, onPath: set<string>, procModules: Result<string>, modinfo: Result<string>)
    ensures var r := Preflight(required, onPath, procModules, modinfo);
      (r.outcome.Pass? <==>
         (forall i :: 0 <= i < |required| ==> required[i] in onPath)
         && procModules.Ok? && Loaded(procModules.value, PeermemModule))
      && (|r.missingRequired| > 0 ==> r.outcome == Fail("missing required tools: " + ListString(r.missingRequired)))
  {
    MissingNone(required, onPath);
    PeermemCheckCases(procModules, modinfo);
  }

  /** A missing optional tool never changes the verdict: only the required list and the module decide it. */
  lemma PreflightOptionalOnlyWarns(required: seq<string>, onPath: set<string>, procModules: Result<string>,
                                   modinfo: Result<string>, tool: string)
    requires tool !in required
    ensures Preflight(required, onPath - {tool}, procModules, modinfo).outcome
         == Preflight(required, onPath + {tool}, procModules, modinfo).outcome
  {
    MissingUnlisted(required, onPath, tool);
  }

  /** Whether an unlisted tool is found does not change what is missing. */
  lemma {:induction false} MissingUnlisted(tools: seq<string>, onPath: set<string>, tool: string)
    requires tool !in tools
    ensures Missing(tools, onPath - {tool}) == Missing(tools, onPath) == Missing(tools, onPath + {tool})
    decreases |tools|
  {
    if |tools| > 0 {
      MissingUnlisted(tools[..|tools| - 1], onPath, tool);
    }
  }
}
