/**
 * The `nargo compile` command: splits the workspace into binary and contract packages, builds
 * the per-package program cache, widens the backend's opcode support for Pedersen hashes, and
 * turns the per-package compilation results into one success or failure.
 */
module CompileCmd {
  import opened Common
  import opened CrateGraph
  import opened Artifacts
  import NoircDriver

  // ================================================================ packages

  datatype PackageType = Library | Binary | Contract

  datatype Package = Package(name: string, packageType: PackageType)
  {
    predicate IsLibrary() { packageType.Library? }
    predicate IsBinary() { packageType.Binary? }
  }

  /** The members that are not libraries, in order. */
  function NonLibrary(ps: seq<Package>): seq<Package>
    decreases |ps|
  {
    if ps == [] then []
    else NonLibrary(ps[..|ps| - 1]) + (if ps[|ps| - 1].IsLibrary() then [] else [ps[|ps| - 1]])
  }

  /** Splits packages into the binaries and the rest, each in order. */
  function PartitionByBinary(ps: seq<Package>): (seq<Package>, seq<Package>)
    decreases |ps|
  {
    if ps == [] then ([], [])
    else
      var (binaries, others) := PartitionByBinary(ps[..|ps| - 1]);
      var p := ps[|ps| - 1];
      if p.IsBinary() then (binaries + [p], others) else (binaries, others + [p])
  }

  /** The packages of one kind, in workspace order. */
  function OfType(ps: seq<Package>, t: PackageType): seq<Package>
    decreases |ps|
  {
    if ps == [] then []
    else OfType(ps[..|ps| - 1], t) + (if ps[|ps| - 1].packageType == t then [ps[|ps| - 1]] else [])
  }

  /** Filtering out libraries and then partitioning by "binary" is selecting each kind in order. */
  lemma {:induction false} PartitionIsSelectionByType(ps: seq<Package>)
    ensures PartitionByBinary(NonLibrary(ps)) == (OfType(ps, Binary), OfType(ps, Contract))
    decreases |ps|
  {
    if ps != [] {
      var init, p := ps[..|ps| - 1], ps[|ps| - 1];
      PartitionIsSelectionByType(init);
      var n := NonLibrary(init);
      if p.IsLibrary() {
        assert NonLibrary(ps) == n + [] == n;
        assert OfType(ps, Binary) == OfType(init, Binary) + [] == OfType(init, Binary);
        assert OfType(ps, Contract) == OfType(init, Contract) + [] == OfType(init, Contract);
      } else {
        assert NonLibrary(ps) == n + [p];
        assert (n + [p])[..|n|] == n;
        if p.IsBinary() {
          assert OfType(ps, Contract) == OfType(init, Contract) + [] == OfType(init, Contract);
        } else {
          assert OfType(ps, Binary) == OfType(init, Binary) + [] == OfType(init, Binary);
        }
      }
    }
  }

  lemma {:induction false} OfTypeMembers(ps: seq<Package>, t: PackageType)
    ensures forall p :: p in OfType(ps, t) <==> p in ps && p.packageType == t
    decreases |ps|
  {
    if ps != [] {
      var init := ps[..|ps| - 1];
      OfTypeMembers(init, t);
      assert ps == init + [ps[|ps| - 1]];
    }
  }

  lemma {:induction false} OfTypeCounts(ps: seq<Package>)
    ensures |OfType(ps, Library)| + |OfType(ps, Binary)| + |OfType(ps, Contract)| == |ps|
    decreases |ps|
  {
    if ps != [] {
      OfTypeCounts(ps[..|ps| - 1]);
    }
  }

  /**
   * The workspace split of `run`: libraries are dropped, binaries and contracts go to separate
   * lists in workspace order, and every other package lands in exactly one of them.
   */
  function PartitionPackages(members: seq<Package>): (r: (seq<Package>, seq<Package>))
    ensures r.0 == OfType(members, Binary) && r.1 == OfType(members, Contract)
    ensures forall p :: p in r.0 <==> p in members && p.IsBinary()
    ensures forall p :: p in r.1 <==> p in members && !p.IsLibrary() && !p.IsBinary()
    ensures |r.0| + |r.1| == |members| - |OfType(members, Library)|
  {
    PartitionIsSelectionByType(members);
    OfTypeMembers(members, Binary);
    OfTypeMembers(members, Contract);
    OfTypeCounts(members);
    PartitionByBinary(NonLibrary(members))
  }

  // ================================================================ opcode support

  predicate IsPedersenHash(opcode: Opcode)
  {
    opcode.BlackBoxCall? && opcode.call.PedersenHash?
  }

  /**
   * The backend's opcode predicate with Pedersen hashing declared supported: Pedersen hash
   * calls are accepted, every other opcode is the backend's call.
   */
  function IsOpcodeSupportedPedersenHash(isOpcodeSupported: Opcode -> bool, opcode: Opcode): (r: bool)
    ensures IsPedersenHash(opcode) ==> r
    ensures !IsPedersenHash(opcode) ==> r == isOpcodeSupported(opcode)
  {
    match opcode
    case BlackBoxCall(PedersenHash) => true
    case _ => isOpcodeSupported(opcode)
  }

  function PedersenOverride(isOpcodeSupported: Opcode -> bool): Opcode -> bool
  {
    opcode => IsOpcodeSupportedPedersenHash(isOpcodeSupported, opcode)
  }

  /** The override only ever widens support, and only on Pedersen hash calls. */
  lemma PedersenOverrideOnlyWidens(isOpcodeSupported: Opcode -> bool, opcode: Opcode)
    ensures isOpcodeSupported(opcode) ==> PedersenOverride(isOpcodeSupported)(opcode)
    ensures PedersenOverride(isOpcodeSupported)(opcode) != isOpcodeSupported(opcode) ==>
      IsPedersenHash(opcode) && !isOpcodeSupported(opcode)
  {
  }

  // ================================================================ program cache

  /** The saved program artifact. */
  datatype PreprocessedProgram = PreprocessedProgram(
    hash: u64, backend: string, abi: Abi, noirVersion: string, bytecode: Circuit)

  /** The saved debug artifact. */
  datatype DebugArtifact = DebugArtifact(
    debugSymbols: seq<DebugInfo>, fileMap: FileMap, warnings: seq<SsaReport>)

  /** Two artifacts that were both read carry debug symbols (`remove(0)` aborts otherwise). */
  predicate CacheReadable(programRead: Option<PreprocessedProgram>, debugRead: Option<DebugArtifact>)
  {
    programRead.Some? && debugRead.Some? ==> |debugRead.value.debugSymbols| > 0
  }

  /**
   * The cached program: present only when both saved artifacts were read, and then made of the
   * program artifact's hash, bytecode, ABI and version with the debug artifact's first symbols,
   * file map and warnings.
   */
  function CachedProgram(programRead: Option<PreprocessedProgram>, debugRead: Option<DebugArtifact>)
    : (r: Option<CompiledProgram>)
    requires CacheReadable(programRead, debugRead)
    ensures r.Some? <==> programRead.Some? && debugRead.Some?
    ensures r.Some? ==>
      && r.value.hash == programRead.value.hash
      && r.value.circuit == programRead.value.bytecode
      && r.value.abi == programRead.value.abi
      && r.value.noirVersion == programRead.value.noirVersion
      && r.value.debug == debugRead.value.debugSymbols[0]
      && r.value.fileMap == debugRead.value.fileMap
      && r.value.warnings == debugRead.value.warnings
  {
    match (programRead, debugRead)
    case (Some(program), Some(debug)) =>
      Some(CompiledProgram(program.hash, program.bytecode, program.abi, debug.debugSymbols[0],
                           debug.fileMap, program.noirVersion, debug.warnings))
    case _ => None
  }

  /** A build is forced exactly when there is a cached program made by another compiler version. */
  function ForceRecompile(cachedProgram: Option<CompiledProgram>, version: string): (r: bool)
    ensures r <==> cachedProgram.Some? && cachedProgram.value.noirVersion != version
  {
    match cachedProgram
    case None => false
    case Some(p) => p.noirVersion != version
  }

  /** The driver call of `compile_program`, with the cache and the forcing rule above. */
  function CompileMainWithCache(s: NoircDriver.Session, crateId: CrateId, options: NoircDriver.CompileOptions,
                                programRead: Option<PreprocessedProgram>, debugRead: Option<DebugArtifact>)
    : CompilationResult<CompiledProgram>
    requires CacheReadable(programRead, debugRead)
  {
    var cachedProgram := CachedProgram(programRead, debugRead);
    var forceRecompile := ForceRecompile(cachedProgram, NoircDriver.ArtifactVersion(s));
    NoircDriver.CompileMain(s, crateId, options, cachedProgram, forceRecompile)
  }

  /** A program artifact from another compiler version is never handed back. */
  lemma StaleArtifactNeverServed(s: NoircDriver.Session, crateId: CrateId, options: NoircDriver.CompileOptions,
                                 programRead: Option<PreprocessedProgram>, debugRead: Option<DebugArtifact>)
    requires CacheReadable(programRead, debugRead)
    ensures var r := CompileMainWithCache(s, crateId, options, programRead, debugRead);
      r.Ok? ==> r.value.0.noirVersion == NoircDriver.ArtifactVersion(s)
  {
  }

  /** The optimizer accepts whatever the driver produced (`expect` aborts otherwise). */
  predicate OptimizerAccepts(
    s: NoircDriver.Session, crateId: CrateId, options: NoircDriver.CompileOptions,
    programRead: Option<PreprocessedProgram>, debugRead: Option<DebugArtifact>,
    npLanguage: Language, isOpcodeSupported: Opcode -> bool,
    optimizeProgram: (CompiledProgram, Language, Opcode -> bool) -> Option<CompiledProgram>)
    requires CacheReadable(programRead, debugRead)
  {
    var main := CompileMainWithCache(s, crateId, options, programRead, debugRead);
    main.Ok? ==> optimizeProgram(main.value.0, npLanguage, PedersenOverride(isOpcodeSupported)).Some?
  }

  /**
   * `compile_program` without its file I/O: compiles `main` against the cache, passes errors
   * on, and optimizes a success for the backend with Pedersen hashing declared supported.
   */
  function CompileProgram(
    s: NoircDriver.Session, crateId: CrateId, options: NoircDriver.CompileOptions,
    programRead: Option<PreprocessedProgram>, debugRead: Option<DebugArtifact>,
    npLanguage: Language, isOpcodeSupported: Opcode -> bool,
    optimizeProgram: (CompiledProgram, Language, Opcode -> bool) -> Option<CompiledProgram>)
    : (r: CompilationResult<CompiledProgram>)
    requires CacheReadable(programRead, debugRead)
    requires OptimizerAccepts(s, crateId, options, programRead, debugRead, npLanguage, isOpcodeSupported, optimizeProgram)
    ensures var main := CompileMainWithCache(s, crateId, options, programRead, debugRead);
      && (main.Err? ==> r == Err(main.error))
      && (main.Ok? ==>
            r.Ok? && r.value.1 == main.value.1
            && Some(r.value.0) == optimizeProgram(main.value.0, npLanguage, PedersenOverride(isOpcodeSupported)))
  {
    match CompileMainWithCache(s, crateId, options, programRead, debugRead)
    case Err(errors) => Err(errors)
    case Ok((program, warnings)) =>
      var optimizedProgram := optimizeProgram(program, npLanguage, PedersenOverride(isOpcodeSupported)).value;
      Ok((optimizedProgram, warnings))
  }

  // ================================================================ reporting

  datatype CompileError = LibraryCrate(packageName: string) | ReportedErrors(errorCount: nat)

  datatype CliError = Compile(error: CompileError) | Backend(message: string)

  /** `report_all`: renders diagnostics and returns how many errors it reported. */
  type ReportAll = (seq<FileDiagnostic>, bool, bool) -> nat

  /** Hands back the artifact of a success, and turns a failure into the count of reported errors. */
  function ReportErrors<T>(result: CompilationResult<T>, reportAll: ReportAll,
                           denyWarnings: bool, silenceWarnings: bool): (r: Result<T, CompileError>)
    ensures r.Ok? <==> result.Ok?
    ensures r.Ok? ==> r.value == result.value.0
    ensures r.Err? ==> r.error == ReportedErrors(reportAll(result.error, denyWarnings, silenceWarnings))
  {
    match result
    case Err(errors) => Err(ReportedErrors(reportAll(errors, denyWarnings, silenceWarnings)))
    case Ok((t, _)) => Ok(t)
  }

  /** Result `k` is the first failing one. */
  predicate FirstFailure<T>(results: seq<CompilationResult<T>>, k: int)
  {
    0 <= k < |results| && results[k].Err? && forall i :: 0 <= i < k ==> results[i].Ok?
  }

  /**
   * Reports each result in turn and collects them into one: all artifacts in order when every
   * result succeeded, and otherwise the report of the first failure.
   */
  function CollectReports<T>(results: seq<CompilationResult<T>>, reportAll: ReportAll,
                             denyWarnings: bool, silenceWarnings: bool): (r: Result<seq<T>, CompileError>)
    ensures r.Ok? <==> forall i :: 0 <= i < |results| ==> results[i].Ok?
    ensures r.Ok? ==> |r.value| == |results| && forall i :: 0 <= i < |results| ==> r.value[i] == results[i].value.0
    ensures r.Err? ==>
      exists k :: FirstFailure(results, k) && r.error == ReportedErrors(reportAll(results[k].error, denyWarnings, silenceWarnings))
  {
    if results == [] then Ok([])
    else
      match ReportErrors(results[0], reportAll, denyWarnings, silenceWarnings)
      case Err(e) => Err(e)
      case Ok(t) =>
        var rest := CollectReports(results[1..], reportAll, denyWarnings, silenceWarnings);
        assert forall i :: 1 <= i < |results| ==> results[i] == results[1..][i - 1];
        match rest
        case Err(e) =>
          var k :| FirstFailure(results[1..], k) && e == ReportedErrors(reportAll(results[1..][k].error, denyWarnings, silenceWarnings));
          assert results[k + 1] == results[1..][k];
          assert FirstFailure(results, k + 1);
          Err(e)
        case Ok(ts) => Ok([t] + ts)
  }

  /** One package's compilation, with its options and the backend's language and opcode support. */
  type CompileProgramFn = (Package, NoircDriver.CompileOptions, Language, Opcode -> bool) -> CompilationResult<CompiledProgram>
  type CompileContractFn = (Package, NoircDriver.CompileOptions, Language, Opcode -> bool) -> CompilationResult<CompiledContract>

  function ProgramResults(packages: seq<Package>, compileProgram: CompileProgramFn, options: NoircDriver.CompileOptions,
                          npLanguage: Language, opcodeSupport: Opcode -> bool): seq<CompilationResult<CompiledProgram>>
  {
    seq(|packages|, i requires 0 <= i < |packages| => compileProgram(packages[i], options, npLanguage, opcodeSupport))
  }

  function ContractResults(packages: seq<Package>, compileContract: CompileContractFn, options: NoircDriver.CompileOptions,
                           npLanguage: Language, opcodeSupport: Opcode -> bool): seq<CompilationResult<CompiledContract>>
  {
    seq(|packages|, i requires 0 <= i < |packages| => compileContract(packages[i], options, npLanguage, opcodeSupport))
  }

  /**
   * Compiles every binary and every contract package and succeeds only if all of them did,
   * with the artifacts in package order.
   */
  function CompileWorkspace(
    binaryPackages: seq<Package>, contractPackages: seq<Package>,
    npLanguage: Language, opcodeSupport: Opcode -> bool, options: NoircDriver.CompileOptions,
    compileProgram: CompileProgramFn, compileContract: CompileContractFn, reportAll: ReportAll)
    : (r: Result<(seq<CompiledProgram>, seq<CompiledContract>), CliError>)
    ensures r.Ok? <==>
      && (forall i :: 0 <= i < |binaryPackages| ==> compileProgram(binaryPackages[i], options, npLanguage, opcodeSupport).Ok?)
      && (forall i :: 0 <= i < |contractPackages| ==> compileContract(contractPackages[i], options, npLanguage, opcodeSupport).Ok?)
    ensures r.Ok? ==>
      && |r.value.0| == |binaryPackages|
      && (forall i :: 0 <= i < |binaryPackages| ==>
            r.value.0[i] == compileProgram(binaryPackages[i], options, npLanguage, opcodeSupport).value.0)
      && |r.value.1| == |contractPackages|
      && (forall i :: 0 <= i < |contractPackages| ==>
            r.value.1[i] == compileContract(contractPackages[i], options, npLanguage, opcodeSupport).value.0)
    // a failure is the report of the first failing program, or, when every program compiled,
    // of the first failing contract
    ensures r.Err? ==> r.error.Compile?
    ensures var programResults := ProgramResults(binaryPackages, compileProgram, options, npLanguage, opcodeSupport);
      var contractResults := ContractResults(contractPackages, compileContract, options, npLanguage, opcodeSupport);
      var deny, silence := options.denyWarnings, options.silenceWarnings;
      r.Err? ==>
        || (exists k :: (FirstFailure(programResults, k)
              && r.error == Compile(ReportedErrors(reportAll(programResults[k].error, deny, silence)))))
        || ((forall i :: 0 <= i < |programResults| ==> programResults[i].Ok?)
              && exists k :: (FirstFailure(contractResults, k)
                 && r.error == Compile(ReportedErrors(reportAll(contractResults[k].error, deny, silence)))))
  {
    var programResults := ProgramResults(binaryPackages, compileProgram, options, npLanguage, opcodeSupport);
    var contractResults := ContractResults(contractPackages, compileContract, options, npLanguage, opcodeSupport);
    assert forall i :: 0 <= i < |binaryPackages| ==>
      programResults[i] == compileProgram(binaryPackages[i], options, npLanguage, opcodeSupport);
    assert forall i :: 0 <= i < |contractPackages| ==>
      contractResults[i] == compileContract(contractPackages[i], options, npLanguage, opcodeSupport);
    match CollectReports(programResults, reportAll, options.denyWarnings, options.silenceWarnings)
    case Err(e) => Err(Compile(e))
    case Ok(compiledPrograms) =>
      match CollectReports(contractResults, reportAll, options.denyWarnings, options.silenceWarnings)
      case Err(e) => Err(Compile(e))
      case Ok(compiledContracts) => Ok((compiledPrograms, compiledContracts))
  }

  /** Compiles one binary package; a library package is refused before anything is compiled. */
  function CompileBinPackage(package: Package, options: NoircDriver.CompileOptions, npLanguage: Language,
                             isOpcodeSupported: Opcode -> bool, compileProgram: CompileProgramFn,
                             reportAll: ReportAll): (r: Result<CompiledProgram, CliError>)
    ensures package.IsLibrary() ==> r == Err(Compile(LibraryCrate(package.name)))
    ensures !package.IsLibrary() ==>
      var result := compileProgram(package, options, npLanguage, isOpcodeSupported);
      && (r.Ok? <==> result.Ok?)
      && (r.Ok? ==> r.value == result.value.0)
      && (r.Err? ==> r.error.Compile? && r.error.error.ReportedErrors?)
  {
    if package.IsLibrary() then Err(Compile(LibraryCrate(package.name)))
    else
      match ReportErrors(compileProgram(package, options, npLanguage, isOpcodeSupported),
                         reportAll, options.denyWarnings, options.silenceWarnings)
      case Err(e) => Err(Compile(e))
      case Ok(program) => Ok(program)
  }

  lemma AllIndicesIffAllMembers(ps: seq<Package>, ok: Package -> bool)
    ensures (forall i :: 0 <= i < |ps| ==> ok(ps[i])) <==> (forall p :: p in ps ==> ok(p))
  {
  }

  /**
   * `nargo compile` over the selected workspace members: succeeds exactly when the backend
   * answered and every binary and every contract package compiled.
   */
  function Run(members: seq<Package>, backendInfo: Result<(Language, Opcode -> bool), string>,
               options: NoircDriver.CompileOptions, compileProgram: CompileProgramFn,
               compileContract: CompileContractFn, reportAll: ReportAll): (r: Result<(), CliError>)
    ensures backendInfo.Err? ==> r == Err(Backend(backendInfo.error))
    ensures backendInfo.Ok? ==>
      var npLanguage, opcodeSupport := backendInfo.value.0, backendInfo.value.1;
      (r.Ok? <==>
        && (forall p :: p in members && p.packageType == Binary ==> compileProgram(p, options, npLanguage, opcodeSupport).Ok?)
        && (forall p :: p in members && p.packageType == Contract ==> compileContract(p, options, npLanguage, opcodeSupport).Ok?))
  {
    var (binaryPackages, contractPackages) := PartitionPackages(members);
    match backendInfo
    case Err(message) => Err(Backend(message))
    case Ok((npLanguage, opcodeSupport)) =>
      var programOk := p => compileProgram(p, options, npLanguage, opcodeSupport).Ok?;
      var contractOk := p => compileContract(p, options, npLanguage, opcodeSupport).Ok?;
      AllIndicesIffAllMembers(binaryPackages, programOk);
      AllIndicesIffAllMembers(contractPackages, contractOk);
      match CompileWorkspace(binaryPackages, contractPackages, npLanguage, opcodeSupport, options,
                             compileProgram, compileContract, reportAll)
      case Err(e) => Err(e)
      case Ok(_) => Ok(())
  }
}
