/**
 * `validateGDSOutput` of `tools/amgctl/cmd/host.go`: the report printed by
 * NVIDIA's `gdscheck -p` is accepted when each of seven requirements is met
 * by some line; otherwise the error lists every unmet requirement in a fixed
 * order.
 */
module GdsCheck {
  import opened Wrappers
  import opened Strings

  /** The requirement map of the source: one flag per requirement. */
  datatype Requirements = Requirements(
    nvmeSupported: bool, wekafsSupported: bool, userspaceRdmaSupported: bool,
    peerDirectEnabled: bool, rdmaLibraryLoaded: bool, rdmaDevicesConfigured: bool,
    iommuDisabled: bool)

  const NoneMet: Requirements := Requirements(false, false, false, false, false, false, false)

  /** The number of requirements, and the flag of requirement `k` in the source's order. */
  const RequirementCount: nat := 7

  function Met(r: Requirements, k: nat): bool {
    if k == 0 then r.nvmeSupported
    else if k == 1 then r.wekafsSupported
    else if k == 2 then r.userspaceRdmaSupported
    else if k == 3 then r.peerDirectEnabled
    else if k == 4 then r.rdmaLibraryLoaded
    else if k == 5 then r.rdmaDevicesConfigured
    else k == 6 && r.iommuDisabled
  }

  /** Whether the trimmed line `t` meets requirement `k`. */
  predicate Meets(t: string, k: nat) {
    if k == 0 then Contains(t, "NVMe") && Contains(t, ": Supported")
    else if k == 1 then Contains(t, "WekaFS") && Contains(t, ": Supported")
    else if k == 2 then Contains(t, "Userspace RDMA") && Contains(t, ": Supported")
    else if k == 3 then Contains(t, "--Mellanox PeerDirect") && Contains(t, ": Enabled")
    else if k == 4 then Contains(t, "--rdma library") && Contains(t, ": Loaded")
    else if k == 5 then Contains(t, "--rdma devices") && Contains(t, ": Configured")
    else k == 6 && Contains(t, "IOMMU: disabled")
  }

  /** The message for an unmet requirement. */
  const Messages: seq<string> := [
    "NVMe is not supported",
    "WekaFS is not supported",
    "Userspace RDMA is not supported",
    "Mellanox PeerDirect is not enabled",
    "RDMA library is not loaded",
    "RDMA devices are not configured",
    "IOMMU is not disabled" + " (should be disabled for optimal GDS performance)"]

  /** The flags after one trimmed line: the body of the scanning loop. */
  function Observe(r: Requirements, t: string): Requirements {
    Requirements(
      r.nvmeSupported || (Contains(t, "NVMe") && Contains(t, ": Supported")),
      r.wekafsSupported || (Contains(t, "WekaFS") && Contains(t, ": Supported")),
      r.userspaceRdmaSupported || (Contains(t, "Userspace RDMA") && Contains(t, ": Supported")),
      r.peerDirectEnabled || (Contains(t, "--Mellanox PeerDirect") && Contains(t, ": Enabled")),
      r.rdmaLibraryLoaded || (Contains(t, "--rdma library") && Contains(t, ": Loaded")),
      r.rdmaDevicesConfigured || (Contains(t, "--rdma devices") && Contains(t, ": Configured")),
      r.iommuDisabled || Contains(t, "IOMMU: disabled"))
  }

  /** The flags after scanning `lines`, each trimmed. */
  function Scan(lines: seq<string>): Requirements {
    if |lines| == 0 then NoneMet
    else Observe(Scan(lines[..|lines| - 1]), TrimSpace(lines[|lines| - 1]))
  }

  /** The messages of the unmet requirements among the first `n`, in order. */
  function MissingUpTo(r: Requirements, n: nat): (errors: seq<string>)
    requires n <= RequirementCount
    ensures |errors| <= n
    ensures forall i :: 0 <= i < |errors| ==> errors[i] in Messages[..n]
  {
    if n == 0 then []
    else MissingUpTo(r, n - 1) + (if Met(r, n - 1) then [] else [Messages[n - 1]])
  }

  /** The error text for a non-empty list of messages. */
  function Failure(errors: seq<string>): string {
    "GDS validation failed:\n  • " + Join(errors, "\n  • ")
  }

  /** The verdict once the flags are known. */
  function VerdictOf(r: Requirements): Outcome {
    var missing := MissingUpTo(r, RequirementCount);
    if |missing| > 0 then Fail(Failure(missing)) else Pass
  }

  /** The verdict on a report. */
  function GdsVerdict(output: string): Outcome {
    VerdictOf(Scan(Split(output, '\n')))
  }

  /** One pass of the loop body: set every flag the trimmed line meets. */
  method ObserveLine(seen: Requirements, t: string) returns (r: Requirements)
    ensures r == Observe(seen, t)
  {
    var nvme, wekafs, userspaceRdma := seen.nvmeSupported, seen.wekafsSupported, seen.userspaceRdmaSupported;
    var peerDirect, rdmaLibrary := seen.peerDirectEnabled, seen.rdmaLibraryLoaded;
    var rdmaDevices, iommu := seen.rdmaDevicesConfigured, seen.iommuDisabled;
    if Contains(t, "NVMe") && Contains(t, ": Supported") {
      nvme := true;
    }
    if Contains(t, "WekaFS") && Contains(t, ": Supported") {
      wekafs := true;
    }
    if Contains(t, "Userspace RDMA") && Contains(t, ": Supported") {
      userspaceRdma := true;
    }
    if Contains(t, "--Mellanox PeerDirect") && Contains(t, ": Enabled") {
      peerDirect := true;
    }
    if Contains(t, "--rdma library") && Contains(t, ": Loaded") {
      rdmaLibrary := true;
    }
    if Contains(t, "--rdma devices") && Contains(t, ": Configured") {
      rdmaDevices := true;
    }
    if Contains(t, "IOMMU: disabled") {
      iommu := true;
    }
    r := Requirements(nvme, wekafs, userspaceRdma, peerDirect, rdmaLibrary, rdmaDevices, iommu);
  }

  /** The scan of `validateGDSOutput` over every line. */
  method ScanReport(lines: seq<string>) returns (seen: Requirements)
    ensures seen == Scan(lines)
  {
    seen := NoneMet;
    var i := 0;
    while i < |lines|
      invariant 0 <= i <= |lines|
      invariant seen == Scan(lines[..i])
    {
      seen := ObserveLine(seen, TrimSpace(lines[i]));
      assert lines[..i + 1][..i] == lines[..i];
      i := i + 1;
    }
    assert lines[..i] == lines;
  }

  /** The error list of `validateGDSOutput`: one append per unmet requirement. */
  method CollectErrors(seen: Requirements) returns (errors: seq<string>)
    ensures errors == MissingUpTo(seen, RequirementCount)
  {
    errors := [];
    if !seen.nvmeSupported { errors := errors + [Messages[0]]; }
    assert errors == MissingUpTo(seen, 1);
    if !seen.wekafsSupported { errors := errors + [Messages[1]]; }
    assert errors == MissingUpTo(seen, 2);
    if !seen.userspaceRdmaSupported { errors := errors + [Messages[2]]; }
    assert errors == MissingUpTo(seen, 3);
    if !seen.peerDirectEnabled { errors := errors + [Messages[3]]; }
    assert errors == MissingUpTo(seen, 4);
    if !seen.rdmaLibraryLoaded { errors := errors + [Messages[4]]; }
    assert errors == MissingUpTo(seen, 5);
    if !seen.rdmaDevicesConfigured { errors := errors + [Messages[5]]; }
    assert errors == MissingUpTo(seen, 6);
    if !seen.iommuDisabled { errors := errors + [Messages[6]]; }
  }

  /** `validateGDSOutput`. */
  method ValidateGdsOutput(output: string) returns (r: Outcome)
    ensures r == GdsVerdict(output)
  {
    var lines := Split(output, '\n');
    var seen := ScanReport(lines);
    var errors := CollectErrors(seen);
    if |errors| > 0 {
      return Fail(Failure(errors));
    }
    return Pass;
  }

  /** A line sets flag `k` iff it contains that requirement's markers. */
  lemma ObserveMet(r: Requirements, t: string, k: nat)
    requires k < RequirementCount
    ensures Met(Observe(r, t), k) == (Met(r, k) || Meets(t, k))
  {
  }

  /** A flag is set after the scan iff some trimmed line meets its requirement. */
  lemma {:induction false} ScanIff(lines: seq<string>, k: nat)
    requires k < RequirementCount
    ensures Met(Scan(lines), k) <==> exists j :: 0 <= j < |lines| && Meets(TrimSpace(lines[j]), k)
    decreases |lines|
  {
    if |lines| > 0 {
      var init := lines[..|lines| - 1];
      ScanIff(init, k);
      ObserveMet(Scan(init), TrimSpace(lines[|lines| - 1]), k);
      assert forall j :: 0 <= j < |init| ==> init[j] == lines[j];
    }
  }

  /** The seven messages are pairwise different. */
  lemma MessagesDistinct()
    ensures forall i, j :: 0 <= i < j < |Messages| ==> Messages[i] != Messages[j]
  {
    assert Messages[0][0] == 'N' && Messages[1][0] == 'W' && Messages[2][0] == 'U';
    assert Messages[3][0] == 'M';
    assert Messages[6][0] == 'I';
    assert Messages[4][0] == 'R' && Messages[4][5] == 'l';
    assert Messages[5][0] == 'R' && Messages[5][5] == 'd';
  }

  /** An unmet requirement is reported, and a met one is not. */
  lemma {:induction false} MissingExactly(r: Requirements, n: nat, k: nat)
    requires n <= RequirementCount && k < n
    ensures Messages[k] in MissingUpTo(r, n) <==> !Met(r, k)
    decreases n
  {
    MessagesDistinct();
    var before := MissingUpTo(r, n - 1);
    if k < n - 1 {
      MissingExactly(r, n - 1, k);
    } else {
      forall i | 0 <= i < |before| ensures before[i] != Messages[k] {
        assert before[i] in Messages[..n - 1];
      }
    }
  }

  /** The error list among the first `n` is empty iff each of them is met. */
  lemma {:induction false} NoneMissingIff(r: Requirements, n: nat)
    requires n <= RequirementCount
    ensures |MissingUpTo(r, n)| == 0 <==> forall k :: 0 <= k < n ==> Met(r, k)
    decreases n
  {
    if n > 0 {
      NoneMissingIff(r, n - 1);
    }
  }

  /** The verdict is a pass iff every requirement is met. */
  lemma PassIff(r: Requirements)
    ensures VerdictOf(r) == Pass <==> forall k :: 0 <= k < RequirementCount ==> Met(r, k)
  {
    NoneMissingIff(r, RequirementCount);
  }

  /** Requirement `k` is named in the failure exactly when it is unmet. */
  lemma ReportedIffUnmet(r: Requirements, k: nat)
    requires k < RequirementCount
    ensures VerdictOf(r).Fail? <==> exists i :: 0 <= i < RequirementCount && !Met(r, i)
    ensures (Messages[k] in MissingUpTo(r, RequirementCount)) <==> !Met(r, k)
  {
    PassIff(r);
    MissingExactly(r, RequirementCount, k);
  }
}
