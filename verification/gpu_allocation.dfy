/**
 * The GPU allocation shared by `amgctl host launch`, `amgctl docker launch`
 * and the legacy docker `launch` command: explicit `--gpu-slots`, else the
 * `--tensor-parallel-size` flag, else the detected GPU count.
 */
module GpuAllocation {
  import opened Wrappers
  import opened Strings

  /** The value of CUDA_VISIBLE_DEVICES and the tensor-parallel size handed to vLLM. */
  datatype Allocation = Allocation(cudaVisibleDevices: string, tensorParallelSize: int)

  /** Each entry trimmed. */
  function Trimmed(parts: seq<string>): (ids: seq<string>)
    ensures |ids| == |parts|
    ensures forall i :: 0 <= i < |ids| ==> ids[i] == TrimSpace(parts[i])
  {
    seq(|parts|, i requires 0 <= i < |parts| => TrimSpace(parts[i]))
  }

  /** The `--gpu-slots` entries as the loop sees them: split on ',' and trimmed. */
  function SlotIds(gpuSlots: string): (ids: seq<string>)
    ensures |ids| == Count(gpuSlots, ',') + 1
    ensures forall i :: 0 <= i < |ids| ==> ids[i] == TrimSpace(Split(gpuSlots, ',')[i])
  {
    Trimmed(Split(gpuSlots, ','))
  }

  /** The outcome of validating the entries: all of them, or the first that does not parse. */
  function Checked(ids: seq<string>): (r: Result<seq<string>>)
    ensures r.Ok? <==> forall k :: 0 <= k < |ids| ==> Atoi(ids[k]).Ok?
    ensures r.Ok? ==> r.value == ids
  {
    var bad := FirstInvalid(ids);
    if bad.Some? then Err(InvalidGpuId(ids[bad.value]))
    else Ok(ids)
  }

  /** The error for a `--gpu-slots` entry that is not a number. */
  function InvalidGpuId(id: string): string {
    "invalid GPU ID '" + id + "' in --gpu-slots: must be numeric"
  }

  /** The first entry that `strconv.Atoi` rejects. */
  function FirstInvalid(ids: seq<string>): (r: Option<nat>)
    ensures r.Some? ==> r.value < |ids| && Atoi(ids[r.value]).Err?
                        && forall k :: 0 <= k < r.value ==> Atoi(ids[k]).Ok?
    ensures r.None? ==> forall k :: 0 <= k < |ids| ==> Atoi(ids[k]).Ok?
    decreases |ids|
  {
    if |ids| == 0 then None
    else if Atoi(ids[0]).Err? then Some(0)
    else
      var rest := FirstInvalid(ids[1..]);
      if rest.Some? then Some(rest.value + 1) else None
  }

  /** "0", "1", ..., "n-1". */
  function DeviceRange(n: int): (r: seq<string>)
    ensures |r| == if n > 0 then n else 0
    ensures forall i :: 0 <= i < |r| ==> r[i] == IntToString(i)
    decreases if n > 0 then n else 0
  {
    if n <= 0 then [] else DeviceRange(n - 1) + [IntToString(n - 1)]
  }

  /** The allocation for the settings and the detected GPU count (`hardware.GetGpuCount`). */
  function Allocate(gpuSlots: string, tensorParallelSize: int, gpuCount: Result<int>): (r: Result<Allocation>)
    ensures gpuSlots != "" ==> (r.Ok? <==> forall i :: 0 <= i < |SlotIds(gpuSlots)| ==> Atoi(SlotIds(gpuSlots)[i]).Ok?)
    ensures gpuSlots != "" && r.Ok? ==>
              r.value == Allocation(Join(SlotIds(gpuSlots), ","), |SlotIds(gpuSlots)|)
    ensures gpuSlots == "" && tensorParallelSize > 0 ==>
              r == Ok(Allocation(Join(DeviceRange(tensorParallelSize), ","), tensorParallelSize))
    ensures gpuSlots == "" && tensorParallelSize <= 0 ==>
              (r.Ok? <==> gpuCount.Ok?)
              && (r.Ok? ==> r.value == Allocation(Join(DeviceRange(gpuCount.value), ","), gpuCount.value))
  {
    if gpuSlots != "" then
      var valid := Checked(SlotIds(gpuSlots));
      if valid.Err? then Err(valid.error)
      else if |valid.value| == 0 then Err("--gpu-slots cannot be empty")
      else Ok(Allocation(Join(valid.value, ","), |valid.value|))
    else
      var n := if tensorParallelSize > 0 then Ok(tensorParallelSize) else gpuCount;
      if n.Err? then Err("failed to auto-detect GPU count: " + n.error)
      else Ok(Allocation(Join(DeviceRange(n.value), ","), n.value))
  }

  /** The slot-validation loop: every trimmed entry must parse, the first that does not is reported. */
  method ValidateSlots(gpuIds: seq<string>) returns (r: Result<seq<string>>)
    ensures r == Checked(Trimmed(gpuIds))
  {
    ghost var ids := Trimmed(gpuIds);
    var validGpuIds: seq<string> := [];
    var i := 0;
    while i < |gpuIds|
      invariant 0 <= i <= |gpuIds|
      invariant validGpuIds == ids[..i]
      invariant forall k :: 0 <= k < i ==> Atoi(ids[k]).Ok?
    {
      var id := TrimSpace(gpuIds[i]);
      if Atoi(id).Err? {
        FirstInvalidAt(ids, i);
        return Err(InvalidGpuId(id));
      }
      PrefixSnoc(ids, i);
      validGpuIds := validGpuIds + [id];
      i := i + 1;
    }
    PrefixAll(ids);
    return Ok(validGpuIds);
  }

  /** The loop that lists devices 0..n-1. */
  method CountDevices(n: int) returns (deviceIds: seq<string>)
    ensures deviceIds == DeviceRange(n)
  {
    deviceIds := [];
    var i := 0;
    while i < n
      invariant 0 <= i && (n > 0 ==> i <= n) && (n <= 0 ==> i == 0)
      invariant deviceIds == DeviceRange(i)
    {
      deviceIds := deviceIds + [IntToString(i)];
      i := i + 1;
    }
  }

  /** The allocation block of the launch commands: validate the slots, or count up to the size. */
  method AllocateGpus(gpuSlots: string, tensorParallelSize: int, gpuCount: Result<int>) returns (r: Result<Allocation>)
    ensures r == Allocate(gpuSlots, tensorParallelSize, gpuCount)
  {
    if gpuSlots != "" {
      var valid := ValidateSlots(Split(gpuSlots, ','));
      if valid.Err? {
        return Err(valid.error);
      }
      var validGpuIds := valid.value;
      if |validGpuIds| == 0 {
        return Err("--gpu-slots cannot be empty");
      }
      return Ok(Allocation(Join(validGpuIds, ","), |validGpuIds|));
    }
    var finalSize := tensorParallelSize;
    if tensorParallelSize <= 0 {
      if gpuCount.Err? {
        return Err("failed to auto-detect GPU count: " + gpuCount.error);
      }
      finalSize := gpuCount.value;
    }
    var deviceIds := CountDevices(finalSize);
    return Ok(Allocation(Join(deviceIds, ","), finalSize));
  }

  lemma FirstInvalidAt(ids: seq<string>, i: nat)
    requires i < |ids| && Atoi(ids[i]).Err?
    requires forall k :: 0 <= k < i ==> Atoi(ids[k]).Ok?
    ensures FirstInvalid(ids) == Some(i)
  {
  }

  /** A number `strconv.Atoi` accepts has no comma in it. */
  lemma NoCommaInNumber(s: string)
    requires Atoi(s).Ok?
    ensures ',' !in s
  {
  }

  /**
   * CUDA_VISIBLE_DEVICES lists exactly the chosen devices: splitting it on ','
   * gives the trimmed slot entries (or "0".."n-1"), one per tensor-parallel rank.
   */
  lemma DevicesRoundTrip(gpuSlots: string, tensorParallelSize: int, gpuCount: Result<int>)
    requires Allocate(gpuSlots, tensorParallelSize, gpuCount).Ok?
    requires 0 < Allocate(gpuSlots, tensorParallelSize, gpuCount).value.tensorParallelSize <= MaxInt64
    ensures var a := Allocate(gpuSlots, tensorParallelSize, gpuCount).value;
            && |Split(a.cudaVisibleDevices, ',')| == a.tensorParallelSize
            && (forall i :: 0 <= i < a.tensorParallelSize ==> Atoi(Split(a.cudaVisibleDevices, ',')[i]).Ok?)
            && (gpuSlots != "" ==> Split(a.cudaVisibleDevices, ',') == SlotIds(gpuSlots)
                                   && a.tensorParallelSize == Count(gpuSlots, ',') + 1)
            && (gpuSlots == "" ==> forall i :: 0 <= i < a.tensorParallelSize ==>
                                     Atoi(Split(a.cudaVisibleDevices, ',')[i]) == Ok(i))
  {
    var a := Allocate(gpuSlots, tensorParallelSize, gpuCount).value;
    if gpuSlots != "" {
      SlotsRoundTrip(SlotIds(gpuSlots));
    } else {
      RangeRoundTrip(a.tensorParallelSize);
    }
  }

  /** Numeric slot entries joined with ',' split back into the same entries. */
  lemma SlotsRoundTrip(ids: seq<string>)
    requires |ids| > 0 && forall i :: 0 <= i < |ids| ==> Atoi(ids[i]).Ok?
    ensures Split(Join(ids, ","), ',') == ids
  {
    forall i | 0 <= i < |ids| ensures ',' !in ids[i] {
      NoCommaInNumber(ids[i]);
    }
    SplitJoin(ids, ',');
  }

  /** "0,1,...,n-1" splits back into n entries, the i-th of which reads as i. */
  lemma RangeRoundTrip(n: nat)
    requires 0 < n <= MaxInt64
    ensures |Split(Join(DeviceRange(n), ","), ',')| == n
    ensures forall i :: 0 <= i < n ==> Atoi(Split(Join(DeviceRange(n), ","), ',')[i]) == Ok(i)
  {
    var ids := DeviceRange(n);
    forall i | 0 <= i < |ids| ensures ',' !in ids[i] && Atoi(ids[i]) == Ok(i) {
      AtoiItoa(i);
      NoCommaInNumber(ids[i]);
    }
    SplitJoin(ids, ',');
  }
}
