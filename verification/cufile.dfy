/**
 * The cufile.json configuration of `runHostConfigCufile` in
 * `tools/amgctl/cmd/host.go`: the fields of `CuFileConfig`, the addresses of
 * the InfiniBand interfaces that are up, and the in-place rewrite of the
 * parsed record to the values GPU Direct Storage wants.
 */
module Cufile {
  import opened Wrappers
  import opened Strings
  import opened Infiniband
  import opened JsonComments

  /** The fields of `CuFileConfig`: the only ones that survive the unmarshal/marshal round trip. */
  datatype CuFile = CuFile(
    maxIoThreads: int, parallelIo: bool, maxIoQueueDepth: int, maxRequestParallelism: int,
    rdmaDevAddrList: seq<string>,
    allowCompatMode: bool, gdsRdmaWriteSupport: bool, wekaRdmaWriteSupport: bool)

  const MinQueueDepth: int := 128
  const MinRequestParallelism: int := 4

  /** An interface whose address goes into `rdma_dev_addr_list`. */
  predicate Usable(iface: IbInterface) { iface.status == "up" && iface.ipAddress != NoIpAssigned }

  /** The address without its CIDR suffix. */
  function CutAtSlash(ip: string): string {
    if '/' in ip then Split(ip, '/')[0] else ip
  }

  /** The cut keeps exactly the text before the first '/'. */
  lemma CutAtSlashBefore(ip: string)
    ensures CutAtSlash(ip) <= ip && '/' !in CutAtSlash(ip)
    ensures '/' in ip ==> |CutAtSlash(ip)| < |ip| && ip[|CutAtSlash(ip)|] == '/'
    ensures '/' !in ip ==> CutAtSlash(ip) == ip
  {
    SplitFirst(ip, '/');
  }

  /** The addresses of the usable interfaces, in input order. */
  function UpIps(ifaces: seq<IbInterface>): (r: seq<string>)
    ensures |r| <= |ifaces|
    decreases |ifaces|
  {
    if |ifaces| == 0 then []
    else
      var last := ifaces[|ifaces| - 1];
      UpIps(ifaces[..|ifaces| - 1]) + (if Usable(last) then [CutAtSlash(last.ipAddress)] else [])
  }

  /** The `upIPs` loop of `runHostConfigCufile`. */
  method CollectUpIps(ibInterfaces: seq<IbInterface>) returns (upIps: seq<string>)
    ensures upIps == UpIps(ibInterfaces)
  {
    upIps := [];
    for i := 0 to |ibInterfaces|
      invariant upIps == UpIps(ibInterfaces[..i])
    {
      var iface := ibInterfaces[i];
      assert ibInterfaces[..i + 1][..i] == ibInterfaces[..i];
      if iface.status == "up" && iface.ipAddress != NoIpAssigned {
        var ip := iface.ipAddress;
        if '/' in ip {
          var parts := Split(ip, '/');
          ip := parts[0];
        }
        upIps := upIps + [ip];
      }
    }
    PrefixAll(ibInterfaces);
  }

  /** The list of a concatenation is the concatenation of the lists: input order is kept. */
  lemma {:induction false} UpIpsConcat(a: seq<IbInterface>, b: seq<IbInterface>)
    ensures UpIps(a + b) == UpIps(a) + UpIps(b)
    decreases |b|
  {
    if |b| == 0 {
      assert a + b == a;
    } else {
      var b' := b[..|b| - 1];
      UpIpsConcat(a, b');
      assert (a + b)[..|a + b| - 1] == a + b';
      assert (a + b)[|a + b| - 1] == b[|b| - 1];
      AppendAssoc(UpIps(a), UpIps(b'), if Usable(b[|b| - 1]) then [CutAtSlash(b[|b| - 1].ipAddress)] else []);
    }
  }

  /** The list holds exactly the cut addresses of the usable interfaces. */
  lemma {:induction false} UpIpsExactly(ifaces: seq<IbInterface>)
    ensures forall ip :: ip in UpIps(ifaces) <==>
      exists k :: 0 <= k < |ifaces| && Usable(ifaces[k]) && ip == CutAtSlash(ifaces[k].ipAddress)
    decreases |ifaces|
  {
    if |ifaces| > 0 {
      var init := ifaces[..|ifaces| - 1];
      UpIpsExactly(init);
      forall ip
        ensures ip in UpIps(ifaces) <==>
          exists k :: 0 <= k < |ifaces| && Usable(ifaces[k]) && ip == CutAtSlash(ifaces[k].ipAddress)
      {
        if ip in UpIps(init) {
          var k :| 0 <= k < |init| && Usable(init[k]) && ip == CutAtSlash(init[k].ipAddress);
          assert ifaces[k] == init[k];
        }
        if exists k :: 0 <= k < |ifaces| && Usable(ifaces[k]) && ip == CutAtSlash(ifaces[k].ipAddress) {
          var k :| 0 <= k < |ifaces| && Usable(ifaces[k]) && ip == CutAtSlash(ifaces[k].ipAddress);
          if k < |init| {
            assert init[k] == ifaces[k];
          }
        }
      }
    }
  }

  /** The record after the rewrite, for the list of up addresses `upIps`. */
  function Normalized(c: CuFile, upIps: seq<string>): CuFile {
    c.(maxIoThreads := 0,
       parallelIo := true,
       maxIoQueueDepth := if c.maxIoQueueDepth < MinQueueDepth then MinQueueDepth else c.maxIoQueueDepth,
       maxRequestParallelism := if c.maxRequestParallelism < MinRequestParallelism then MinRequestParallelism else c.maxRequestParallelism,
       rdmaDevAddrList := upIps,
       allowCompatMode := true,
       gdsRdmaWriteSupport := true,
       wekaRdmaWriteSupport := true)
  }

  /** The settings the rewrite aims at (the address list aside). */
  predicate Optimal(c: CuFile) {
    c.maxIoThreads == 0 && c.parallelIo
    && c.maxIoQueueDepth >= MinQueueDepth && c.maxRequestParallelism >= MinRequestParallelism
    && c.allowCompatMode && c.gdsRdmaWriteSupport && c.wekaRdmaWriteSupport
  }

  /**
   * The rewrite reaches the optimal settings with the given address list; the
   * queue depth and request parallelism become max(old, 128) and max(old, 4).
   */
  lemma NormalizedIsOptimal(c: CuFile, upIps: seq<string>)
    ensures Optimal(Normalized(c, upIps)) && Normalized(c, upIps).rdmaDevAddrList == upIps
    ensures Normalized(c, upIps).maxIoQueueDepth == Max(c.maxIoQueueDepth, MinQueueDepth)
    ensures Normalized(c, upIps).maxRequestParallelism == Max(c.maxRequestParallelism, MinRequestParallelism)
  {
  }

  function Max(a: int, b: int): int { if a < b then b else a }

  /** Rewriting twice with the same interfaces is rewriting once. */
  lemma NormalizeIdempotent(c: CuFile, upIps: seq<string>)
    ensures Normalized(Normalized(c, upIps), upIps) == Normalized(c, upIps)
  {
  }

  /** The rewrite changes nothing exactly when the record is already optimal and lists those addresses. */
  lemma NormalizeFixedPoint(c: CuFile, upIps: seq<string>)
    ensures Normalized(c, upIps) == c <==> Optimal(c) && c.rdmaDevAddrList == upIps
  {
    if Normalized(c, upIps) == c {
      assert Optimal(Normalized(c, upIps));
    }
  }

  /** The parsed `CuFileConfig` that `runHostConfigCufile` rewrites field by field. */
  class CuFileConfig {
    var maxIoThreads: int
    var parallelIo: bool
    var maxIoQueueDepth: int
    var maxRequestParallelism: int
    var rdmaDevAddrList: seq<string>
    var allowCompatMode: bool
    var gdsRdmaWriteSupport: bool
    var wekaRdmaWriteSupport: bool

    /** The record the fields hold. */
    function Values(): CuFile
      reads this
    {
      CuFile(maxIoThreads, parallelIo, maxIoQueueDepth, maxRequestParallelism,
             rdmaDevAddrList, allowCompatMode, gdsRdmaWriteSupport, wekaRdmaWriteSupport)
    }

    /** The record `json.Unmarshal` filled in. */
    constructor (parsed: CuFile)
      ensures Values() == parsed
    {
      maxIoThreads := parsed.maxIoThreads;
      parallelIo := parsed.parallelIo;
      maxIoQueueDepth := parsed.maxIoQueueDepth;
      maxRequestParallelism := parsed.maxRequestParallelism;
      rdmaDevAddrList := parsed.rdmaDevAddrList;
      allowCompatMode := parsed.allowCompatMode;
      gdsRdmaWriteSupport := parsed.gdsRdmaWriteSupport;
      wekaRdmaWriteSupport := parsed.wekaRdmaWriteSupport;
    }

    /** The field updates of `runHostConfigCufile`, each guarded as in the source. */
    method Normalize(upIps: seq<string>)
      modifies this
      ensures Values() == Normalized(old(Values()), upIps)
    {
      if maxIoThreads != 0 {
        maxIoThreads := 0;
      }
      if !parallelIo {
        parallelIo := true;
      }
      if maxIoQueueDepth < MinQueueDepth {
        maxIoQueueDepth := MinQueueDepth;
      }
      if maxRequestParallelism < MinRequestParallelism {
        maxRequestParallelism := MinRequestParallelism;
      }
      rdmaDevAddrList := upIps;
      if !allowCompatMode {
        allowCompatMode := true;
      }
      if !gdsRdmaWriteSupport {
        gdsRdmaWriteSupport := true;
      }
      if !wekaRdmaWriteSupport {
        wekaRdmaWriteSupport := true;
      }
    }
  }

  const SourcePath: string := "/etc/cufile.json"

  /**
   * `runHostConfigCufile`, with the effects as inputs: whether `os.Stat` says the
   * source is missing, the `MkdirAll` outcome, the source text, `json.Unmarshal`
   * (`parse`, applied to the text without comments), the InfiniBand interfaces
   * and the `WriteFile` outcome. The result is the record written to
   * `<base>/cufile.json` (`destPath`).
   */
  function ConfigureCufile(sourceMissing: bool, basePath: string, mkdir: Outcome, source: Result<string>,
                           parse: string -> Result<CuFile>, ifaces: Result<seq<IbInterface>>,
                           destPath: string, write: Outcome): Result<CuFile>
  {
    if sourceMissing then Err("source file " + SourcePath + " does not exist")
    else if mkdir.Fail? then Err("failed to create base directory " + basePath + ": " + mkdir.error)
    else if source.Err? then Err("failed to read source file " + SourcePath + ": " + source.error)
    else
      var parsed := parse(StripJsonComments(source.value));
      if parsed.Err? then Err("failed to parse source file " + SourcePath + ": " + parsed.error)
      else if ifaces.Err? then Err("failed to get InfiniBand interfaces: " + ifaces.error)
      else if write.Fail? then Err("failed to write destination file " + destPath + ": " + write.error)
      else Ok(Normalized(parsed.value, UpIps(ifaces.value)))
  }

  /** `runHostConfigCufile`: parse into a `CuFileConfig`, collect the addresses, rewrite in place. */
  method RunHostConfigCufile(sourceMissing: bool, basePath: string, mkdir: Outcome, source: Result<string>,
                             parse: string -> Result<CuFile>, ifaces: Result<seq<IbInterface>>,
                             destPath: string, write: Outcome)
    returns (r: Result<CuFile>)
    ensures r == ConfigureCufile(sourceMissing, basePath, mkdir, source, parse, ifaces, destPath, write)
  {
    if sourceMissing {
      return Err("source file " + SourcePath + " does not exist");
    }
    if mkdir.Fail? {
      return Err("failed to create base directory " + basePath + ": " + mkdir.error);
    }
    if source.Err? {
      return Err("failed to read source file " + SourcePath + ": " + source.error);
    }
    var cleanData := StripJsonComments(source.value);
    var parsed := parse(cleanData);
    if parsed.Err? {
      return Err("failed to parse source file " + SourcePath + ": " + parsed.error);
    }
    var config := new CuFileConfig(parsed.value);
    if ifaces.Err? {
      return Err("failed to get InfiniBand interfaces: " + ifaces.error);
    }
    var upIps := CollectUpIps(ifaces.value);
    config.Normalize(upIps);
    if write.Fail? {
      return Err("failed to write destination file " + destPath + ": " + write.error);
    }
    return Ok(config.Values());
  }

  /**
   * Configuring again from the file just written, with the same interfaces,
   * writes the same record: the command is idempotent.
   */
  lemma ConfigureCufileIdempotent(basePath: string, mkdir: Outcome, source: Result<string>,
                                  parse: string -> Result<CuFile>, ifaces: Result<seq<IbInterface>>,
                                  destPath: string, write: Outcome, written: string)
    requires ConfigureCufile(false, basePath, mkdir, source, parse, ifaces, destPath, write).Ok?
    requires parse(StripJsonComments(written)) == ConfigureCufile(false, basePath, mkdir, source, parse, ifaces, destPath, write)
    ensures ConfigureCufile(false, basePath, mkdir, Ok(written), parse, ifaces, destPath, write)
      == ConfigureCufile(false, basePath, mkdir, source, parse, ifaces, destPath, write)
  {
    var first := ConfigureCufile(false, basePath, mkdir, source, parse, ifaces, destPath, write);
    NormalizeIdempotent(parse(StripJsonComments(source.value)).value, UpIps(ifaces.value));
  }
}
