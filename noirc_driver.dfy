/**
 * The compiler driver: wires crates to the standard library, runs the check phase, and compiles
 * either the `main` program of a crate or its single contract, with a hash-gated cache for
 * programs and partial-failure tolerance for contract functions.
 */
module NoircDriver {
  import opened Common
  import opened Fm
  import opened CrateGraph
  import opened Artifacts

  const StdCrateName: CrateName := "std"

  /** The standard library's root file: `lib.nr` inside the `std` directory. */
  const StdLibPath: string := "std/lib.nr"

  const NoMainMessage: string :=
    "cannot compile crate into a program as it does not contain a `main` function"
  const TooManyContractsMessage: string := "Packages are limited to a single contract"
  const NoContractMessage: string :=
    "cannot compile crate into a contract as it does not contain any contracts"

  /** The build constants (`CARGO_PKG_VERSION`, `GIT_COMMIT`, `GIT_DIRTY`), injected. */
  datatype BuildInfo = BuildInfo(cargoPkgVersion: string, gitCommit: string, gitDirty: string)

  /** `NOIR_ARTIFACT_VERSION_STRING`: package version, `+`, commit. */
  function NoirArtifactVersionString(b: BuildInfo): string
  {
    b.cargoPkgVersion + "+" + b.gitCommit
  }

  datatype CompileOptions = CompileOptions(
    showSsa: bool,
    showBrillig: bool,
    printAcir: bool,
    denyWarnings: bool,
    silenceWarnings: bool)

  /** `CompileOptions::default()`: nothing shown, printed, denied or silenced. */
  const DefaultOptions := CompileOptions(false, false, false, false, false)

  /** The frontend's contract visibility of a function. */
  datatype ContractVisibility = SecretVisibility | OpenVisibility

  datatype FunctionModifiers = FunctionModifiers(
    contractFunctionType: Option<ContractVisibility>,
    isUnconstrained: bool,
    isInternal: Option<bool>)

  datatype ContractFunctionMeta = ContractFunctionMeta(functionId: FuncId, isEntryPoint: bool)

  /** A contract as declared in the crate: its functions in order and its event structs. */
  datatype Contract = Contract(name: string, functions: seq<ContractFunctionMeta>, events: seq<StructId>)

  datatype FrontendType = FrontendType(name: string)
  datatype Param = Param(name: string, typ: FrontendType, visibility: AbiVisibility)
  datatype FunctionSignature = FunctionSignature(parameters: seq<Param>, returnType: Option<FrontendType>)

  /** A monomorphized program, by its serialised form. */
  datatype MonoProgram = MonoProgram(repr: seq<nat>)

  /** What `create_circuit` returns on success. */
  datatype Lowered = Lowered(circuit: Circuit, debug: DebugInfo, abi: Abi, warnings: seq<SsaReport>)

  /**
   * The collaborators of the driver, as the results they give for the resolved program: the
   * definition collector, the queries on the resolved definitions, monomorphization, the hash,
   * circuit lowering and the debug-file filter; plus the build constants.
   */
  datatype Session = Session(
    collectDefs: CrateId -> seq<(CompilerError, FileId)>,
    getMainFunction: CrateId -> Option<FuncId>,
    getAllContracts: CrateId -> seq<Contract>,
    functionName: FuncId -> string,
    functionModifiers: FuncId -> FunctionModifiers,
    functionSignature: FuncId -> FunctionSignature,
    intoAbiParams: seq<Param> -> seq<AbiParameter>,
    abiTypeFromType: FrontendType -> AbiType,
    eventFromStruct: StructId -> ContractEvent,
    monomorphize: FuncId -> MonoProgram,
    hash64: MonoProgram -> u64,
    createCircuit: (MonoProgram, bool, bool) -> Result<Lowered, RuntimeError>,
    filterRelevantFiles: seq<DebugInfo> -> FileMap,
    build: BuildInfo)

  function ArtifactVersion(s: Session): string
  {
    NoirArtifactVersionString(s.build)
  }

  // ================================================================ crate wiring

  /** The state crates are registered in: the file manager and the crate graph. */
  class Context {
    const fileManager: FileManager
    const crateGraph: Graph

    ghost predicate Valid()
      reads this, fileManager, crateGraph
    {
      && crateGraph.Valid()
      && forall c :: c in crateGraph.crates ==> crateGraph.crates[c] < |fileManager.files|
    }

    constructor (reader: string -> Option<string>)
      ensures Valid() && fresh(fileManager) && fresh(crateGraph)
      ensures fileManager.reader == reader && fileManager.files == []
      ensures crateGraph.crates == map[] && crateGraph.edges == {} && crateGraph.stdlib == None
    {
      fileManager := new FileManager(reader);
      crateGraph := new Graph();
    }

    /**
     * Registers the standard library and `fileName` as the root crate, and makes the root depend
     * on the standard library under the name `std`. Unreadable files abort (`unwrap`).
     */
    method PrepareCrate(fileName: string) returns (rootCrateId: CrateId)
      requires Valid()
      requires fileManager.reader(StdLibPath).Some? && fileManager.reader(fileName).Some?
      modifies fileManager, crateGraph
      ensures Valid()
      ensures fileManager.files == old(fileManager.files)
        + [(StdLibPath, fileManager.reader(StdLibPath).value), (fileName, fileManager.reader(fileName).value)]
      ensures crateGraph.stdlib == Some(Stdlib(old(crateGraph.next)))
      ensures rootCrateId == Root(old(crateGraph.next) + 1)
      ensures crateGraph.crates == old(crateGraph.crates)
        [Stdlib(old(crateGraph.next)) := |old(fileManager.files)|]
        [rootCrateId := |old(fileManager.files)| + 1]
      ensures crateGraph.edges == old(crateGraph.edges)
        + {Dependency(rootCrateId, StdCrateName, Stdlib(old(crateGraph.next)))}
    {
      var stdFileId := fileManager.AddFile(StdLibPath);
      var stdCrateId := crateGraph.AddStdlib(stdFileId.value);
      var rootFileId := fileManager.AddFile(fileName);
      var root := crateGraph.AddCrateRoot(rootFileId.value);
      EdgeFromFreshCrateKeepsAcyclic(crateGraph.edges, root, StdCrateName, stdCrateId);
      AddDep(root, stdCrateId, StdCrateName);
      rootCrateId := root;
    }

    /**
     * Registers `fileName` as a new crate depending on the standard library under `std`. The
     * standard library must already be present (`stdlib_crate_id` would abort otherwise).
     */
    method PrepareDependency(fileName: string) returns (crateId: CrateId)
      requires Valid()
      requires crateGraph.stdlib.Some?
      requires fileManager.reader(fileName).Some?
      modifies fileManager, crateGraph
      ensures Valid()
      ensures fileManager.files == old(fileManager.files) + [(fileName, fileManager.reader(fileName).value)]
      ensures crateId == Crate(old(crateGraph.next)) && crateId !in old(crateGraph.crates)
      ensures crateGraph.crates == old(crateGraph.crates)[crateId := |old(fileManager.files)|]
      ensures crateGraph.edges == old(crateGraph.edges)
        + {Dependency(crateId, StdCrateName, old(crateGraph.stdlib).value)}
      ensures crateGraph.stdlib == old(crateGraph.stdlib)
    {
      var rootFileId := fileManager.AddFile(fileName);
      crateId := crateGraph.AddCrate(rootFileId.value);
      var stdCrateId := crateGraph.stdlib.value;
      EdgeFromFreshCrateKeepsAcyclic(crateGraph.edges, crateId, StdCrateName, stdCrateId);
      AddDep(crateId, stdCrateId, StdCrateName);
    }

    /** Adds `thisCrate -crateName-> dependsOn`; a cyclic edge would abort, so it is excluded. */
    method AddDep(thisCrate: CrateId, dependsOn: CrateId, crateName: CrateName)
      requires Valid()
      requires thisCrate in crateGraph.crates && dependsOn in crateGraph.crates
      requires Acyclic(crateGraph.edges + {Dependency(thisCrate, crateName, dependsOn)})
      modifies crateGraph
      ensures Valid()
      ensures crateGraph.edges == old(crateGraph.edges) + {Dependency(thisCrate, crateName, dependsOn)}
      ensures crateGraph.crates == old(crateGraph.crates)
      ensures crateGraph.next == old(crateGraph.next) && crateGraph.stdlib == old(crateGraph.stdlib)
    {
      crateGraph.AddDep(thisCrate, crateName, dependsOn);
    }

    /**
     * Prepares `rootFile` as the root crate and compiles its `main` with the default options,
     * no cached program and a forced build.
     */
    method CompileFile(s: Session, rootFile: string) returns (r: CompilationResult<CompiledProgram>)
      requires Valid()
      requires fileManager.reader(StdLibPath).Some? && fileManager.reader(rootFile).Some?
      modifies fileManager, crateGraph
      ensures Valid()
      ensures fileManager.files == old(fileManager.files)
        + [(StdLibPath, fileManager.reader(StdLibPath).value), (rootFile, fileManager.reader(rootFile).value)]
      ensures crateGraph.stdlib == Some(Stdlib(old(crateGraph.next)))
      ensures crateGraph.crates == old(crateGraph.crates)
        [Stdlib(old(crateGraph.next)) := |old(fileManager.files)|]
        [Root(old(crateGraph.next) + 1) := |old(fileManager.files)| + 1]
      ensures crateGraph.edges == old(crateGraph.edges)
        + {Dependency(Root(old(crateGraph.next) + 1), StdCrateName, Stdlib(old(crateGraph.next)))}
      ensures r == CompileMain(s, Root(old(crateGraph.next) + 1), DefaultOptions, None, true)
    {
      var crateId := PrepareCrate(rootFile);
      r := CompileMain(s, crateId, DefaultOptions, None, true);
    }
  }

  // ================================================================ pass / fail

  /** Whether some diagnostic in the list is an error rather than a warning. */
  function AnyError(errors: seq<FileDiagnostic>): (r: bool)
    ensures r <==> exists i :: 0 <= i < |errors| && errors[i].diagnostic.isError
  {
    if errors == [] then false
    else if errors[0].diagnostic.isError then true
    else
      var rest := AnyError(errors[1..]);
      assert forall i :: 1 <= i < |errors| ==> errors[i] == errors[1..][i - 1];
      rest
  }

  /**
   * Whether compilation must halt: with `denyWarnings` any diagnostic at all, otherwise only a
   * diagnostic that is an error.
   */
  function HasErrors(errors: seq<FileDiagnostic>, denyWarnings: bool): (r: bool)
    ensures denyWarnings ==> (r <==> |errors| > 0)
    ensures !denyWarnings ==> (r <==> exists i :: 0 <= i < |errors| && errors[i].diagnostic.isError)
  {
    if denyWarnings then errors != [] else AnyError(errors)
  }

  /** Halting on a concatenation is halting on one of its parts. */
  lemma {:induction false} HasErrorsAppend(a: seq<FileDiagnostic>, b: seq<FileDiagnostic>, denyWarnings: bool)
    ensures HasErrors(a + b, denyWarnings) <==> HasErrors(a, denyWarnings) || HasErrors(b, denyWarnings)
  {
    if !denyWarnings {
      if HasErrors(a, false) {
        var j :| 0 <= j < |a| && a[j].diagnostic.isError;
        assert (a + b)[j] == a[j];
      }
      if HasErrors(b, false) {
        var j :| 0 <= j < |b| && b[j].diagnostic.isError;
        assert (a + b)[|a| + j] == b[j];
      }
      if HasErrors(a + b, false) {
        var k :| 0 <= k < |a + b| && (a + b)[k].diagnostic.isError;
        if k < |a| {
          assert a[k] == (a + b)[k];
        } else {
          assert b[k - |a|] == (a + b)[k];
        }
      }
    }
  }

  // ================================================================ check phase

  /** The diagnostics of a check result, whichever way it went. */
  function CheckDiagnostics(r: CompilationResult<()>): seq<FileDiagnostic>
  {
    if r.Ok? then r.value.1 else r.error
  }

  /**
   * Runs definition collection (with resolution and type checking) on a crate, anchors every
   * reported error to its file, and fails exactly when those diagnostics halt compilation.
   */
  function CheckCrate(s: Session, crateId: CrateId, denyWarnings: bool): (r: CompilationResult<()>)
    ensures var collected, ds := s.collectDefs(crateId), CheckDiagnostics(r);
      && |ds| == |collected|
      && forall i :: 0 <= i < |ds| ==>
           ds[i].fileId == collected[i].1 && ds[i].diagnostic == IntoDiagnostic(collected[i].0)
    ensures r.Err? <==> HasErrors(CheckDiagnostics(r), denyWarnings)
    // what a success hands on: warnings only, and none at all when warnings are denied
    ensures r.Ok? ==> forall i :: 0 <= i < |r.value.1| ==> !r.value.1[i].diagnostic.isError
    ensures r.Ok? && denyWarnings ==> r.value.1 == []
    // what a failure hands on: never empty, and holding an error unless warnings are denied
    ensures r.Err? ==> |r.error| > 0
    ensures r.Err? && !denyWarnings ==> exists i :: 0 <= i < |r.error| && r.error[i].diagnostic.isError
  {
    var collected := s.collectDefs(crateId);
    var errors := seq(|collected|, i requires 0 <= i < |collected| =>
      InFile(IntoDiagnostic(collected[i].0), collected[i].1));
    if HasErrors(errors, denyWarnings) then Err(errors) else Ok(((), errors))
  }

  /**
   * A check that reports only warnings passes with that list, and with warnings denied fails
   * with the very same list.
   */
  lemma WarningsAlonePassUnlessDenied(s: Session, crateId: CrateId)
    requires forall i :: 0 <= i < |s.collectDefs(crateId)| ==> !IntoDiagnostic(s.collectDefs(crateId)[i].0).isError
    ensures CheckCrate(s, crateId, false).Ok?
    ensures |s.collectDefs(crateId)| > 0 ==>
      CheckCrate(s, crateId, true) == Err(CheckCrate(s, crateId, false).value.1)
  {
  }

  // ================================================================ ABI of main

  /** The ABI of the crate's `main`: parameters and return type, or `None` without a `main`. */
  function ComputeFunctionAbi(s: Session, crateId: CrateId): (r: Option<(seq<AbiParameter>, Option<AbiType>)>)
    ensures r.None? <==> s.getMainFunction(crateId).None?
    ensures r.Some? ==>
      var signature := s.functionSignature(s.getMainFunction(crateId).value);
      && r.value.0 == s.intoAbiParams(signature.parameters)
      && (r.value.1.Some? <==> signature.returnType.Some?)
      && (r.value.1.Some? ==> r.value.1.value == s.abiTypeFromType(signature.returnType.value))
  {
    match s.getMainFunction(crateId)
    case None => None
    case Some(mainFunction) =>
      var signature := s.functionSignature(mainFunction);
      var parameters := s.intoAbiParams(signature.parameters);
      var returnType := match signature.returnType
        case None => None
        case Some(typ) => Some(s.abiTypeFromType(typ));
      Some((parameters, returnType))
  }

  // ================================================================ compiling one function

  /** Asking for a fresh build, or for intermediate output, rules the cache out. */
  predicate ForcesCompile(options: CompileOptions, forceCompile: bool)
  {
    forceCompile || options.printAcir || options.showBrillig || options.showSsa
  }

  /** The only case in which the supplied cached program is reused. */
  predicate CacheHit(s: Session, options: CompileOptions, mainFunction: FuncId,
                     cachedProgram: Option<CompiledProgram>, forceCompile: bool)
  {
    && !ForcesCompile(options, forceCompile)
    && cachedProgram.Some?
    && cachedProgram.value.hash == s.hash64(s.monomorphize(mainFunction))
  }

  /**
   * Compiles a function of an already checked crate: reuses the cached program when the hash
   * of the monomorphized function matches and nothing forces a build, and otherwise lowers it.
   */
  function CompileNoCheck(s: Session, options: CompileOptions, mainFunction: FuncId,
                          cachedProgram: Option<CompiledProgram>, forceCompile: bool)
    : (r: Result<CompiledProgram, RuntimeError>)
    ensures CacheHit(s, options, mainFunction, cachedProgram, forceCompile) ==> r == Ok(cachedProgram.value)
    ensures !CacheHit(s, options, mainFunction, cachedProgram, forceCompile) ==>
      var lowered := s.createCircuit(s.monomorphize(mainFunction), options.showSsa, options.showBrillig);
      && (r.Err? <==> lowered.Err?)
      && (r.Err? ==> r.error == lowered.error)
      && (r.Ok? ==>
            && r.value.circuit == lowered.value.circuit
            && r.value.debug == lowered.value.debug
            && r.value.abi == lowered.value.abi
            && r.value.warnings == lowered.value.warnings
            && r.value.fileMap == s.filterRelevantFiles([lowered.value.debug])
            && r.value.noirVersion == ArtifactVersion(s))
    // whichever path it takes, a program carries the hash of the function as it is now
    ensures r.Ok? ==> r.value.hash == s.hash64(s.monomorphize(mainFunction))
  {
    var program := s.monomorphize(mainFunction);
    var hash := s.hash64(program);
    if !ForcesCompile(options, forceCompile) && cachedProgram.Some? && hash == cachedProgram.value.hash then
      Ok(cachedProgram.value)
    else
      match s.createCircuit(program, options.showSsa, options.showBrillig)
      case Err(e) => Err(e)
      case Ok(lowered) =>
        var fileMap := s.filterRelevantFiles([lowered.debug]);
        Ok(CompiledProgram(hash, lowered.circuit, lowered.abi, lowered.debug, fileMap,
                           ArtifactVersion(s), lowered.warnings))
  }

  /** Feeding a compile's own output back as the cache makes the next compile return it as is. */
  lemma CompileNoCheckIdempotent(s: Session, options: CompileOptions, mainFunction: FuncId,
                                 cachedProgram: Option<CompiledProgram>)
    requires !options.printAcir && !options.showBrillig && !options.showSsa
    requires CompileNoCheck(s, options, mainFunction, cachedProgram, false).Ok?
    ensures var first := CompileNoCheck(s, options, mainFunction, cachedProgram, false);
      CompileNoCheck(s, options, mainFunction, Some(first.value), false) == first
  {
  }

  /** When a build is forced the cached program has no influence on the result. */
  lemma ForcedCompileIgnoresCache(s: Session, options: CompileOptions, mainFunction: FuncId,
                                  cached1: Option<CompiledProgram>, cached2: Option<CompiledProgram>,
                                  forceCompile: bool)
    requires ForcesCompile(options, forceCompile)
    ensures CompileNoCheck(s, options, mainFunction, cached1, forceCompile)
         == CompileNoCheck(s, options, mainFunction, cached2, forceCompile)
  {
  }

  // ================================================================ programs

  const NoMainError: FileDiagnostic := InFile(FromMessage(NoMainMessage), DefaultFileId)

  /**
   * Checks the crate, then compiles its `main`. Check failures pass through verbatim; a missing
   * `main` and a lowering error are single errors; compile warnings are appended to the check
   * warnings, or fail the compile when warnings are denied.
   */
  function CompileMain(s: Session, crateId: CrateId, options: CompileOptions,
                       cachedProgram: Option<CompiledProgram>, forceCompile: bool)
    : (r: CompilationResult<CompiledProgram>)
    ensures var check := CheckCrate(s, crateId, options.denyWarnings);
      check.Err? ==> r == Err(check.error)
    ensures var check := CheckCrate(s, crateId, options.denyWarnings);
      check.Ok? && s.getMainFunction(crateId).None? ==> r == Err([NoMainError])
    ensures var check, main := CheckCrate(s, crateId, options.denyWarnings), s.getMainFunction(crateId);
      check.Ok? && main.Some? ==>
      match CompileNoCheck(s, options, main.value, cachedProgram, forceCompile)
      case Err(e) => r == Err([RuntimeErrorDiagnostic(e)])
      case Ok(program) =>
        var compileWarnings := ReportDiagnostics(program.warnings);
        if options.denyWarnings && compileWarnings != [] then r == Err(compileWarnings)
        else r == Ok((program, check.value.1 + compileWarnings))
    // denied warnings never survive into a success
    ensures r.Ok? && options.denyWarnings ==> r.value.1 == []
    // a failure is never empty, and holds an error unless warnings are denied
    ensures r.Err? ==> |r.error| > 0
    ensures r.Err? && !options.denyWarnings ==>
      exists i :: 0 <= i < |r.error| && r.error[i].diagnostic.isError
  {
    match CheckCrate(s, crateId, options.denyWarnings)
    case Err(errors) => Err(errors)
    case Ok((_, warnings)) =>
      match s.getMainFunction(crateId)
      case None => assert [NoMainError][0].diagnostic.isError; Err([NoMainError])
      case Some(main) =>
        match CompileNoCheck(s, options, main, cachedProgram, forceCompile)
        case Err(e) => assert [RuntimeErrorDiagnostic(e)][0].diagnostic.isError; Err([RuntimeErrorDiagnostic(e)])
        case Ok(compiledProgram) =>
          var compilationWarnings := ReportDiagnostics(compiledProgram.warnings);
          if options.denyWarnings && compilationWarnings != [] then Err(compilationWarnings)
          else Ok((compiledProgram, warnings + compilationWarnings))
  }

  // ================================================================ contract functions

  /** How each entry point of a contract is compiled: never from a cache. */
  function EntryResult(s: Session, options: CompileOptions, f: ContractFunctionMeta)
    : Result<CompiledProgram, RuntimeError>
  {
    CompileNoCheck(s, options, f.functionId, None, true)
  }

  predicate Compiles(s: Session, options: CompileOptions, f: ContractFunctionMeta)
  {
    f.isEntryPoint && EntryResult(s, options, f).Ok?
  }

  predicate Fails(s: Session, options: CompileOptions, f: ContractFunctionMeta)
  {
    f.isEntryPoint && EntryResult(s, options, f).Err?
  }

  /** Every entry point that compiles has a contract visibility (`expect` aborts otherwise). */
  predicate VisibilityKnown(s: Session, options: CompileOptions, fs: seq<ContractFunctionMeta>)
  {
    forall f :: f in fs && Compiles(s, options, f) ==>
      s.functionModifiers(f.functionId).contractFunctionType.Some?
  }

  lemma VisibilityKnownPrefix(s: Session, options: CompileOptions, fs: seq<ContractFunctionMeta>, k: nat)
    requires k <= |fs| && VisibilityKnown(s, options, fs)
    ensures VisibilityKnown(s, options, fs[..k])
  {
    forall f | f in fs[..k] ensures f in fs {
    }
  }

  /** `ContractFunctionType::new`: an unconstrained function is `Unconstrained` whatever its visibility. */
  function NewContractFunctionType(visibility: ContractVisibility, isUnconstrained: bool): ContractFunctionType
  {
    if isUnconstrained then Unconstrained
    else match visibility
      case SecretVisibility => Secret
      case OpenVisibility => Open
  }

  /** The artifact of one compiled entry point. */
  function ContractFunctionOf(s: Session, f: ContractFunctionMeta, program: CompiledProgram): ContractFunction
    requires s.functionModifiers(f.functionId).contractFunctionType.Some?
  {
    var modifiers := s.functionModifiers(f.functionId);
    ContractFunction(
      s.functionName(f.functionId),
      NewContractFunctionType(modifiers.contractFunctionType.value, modifiers.isUnconstrained),
      UnwrapOr(modifiers.isInternal, false),
      program.abi,
      program.circuit,
      program.debug)
  }

  /** The diagnostics of the failing entry points among `fs`, in order. */
  function FunctionErrors(s: Session, options: CompileOptions, fs: seq<ContractFunctionMeta>)
    : seq<FileDiagnostic>
    decreases |fs|
  {
    if fs == [] then []
    else
      var f := fs[|fs| - 1];
      FunctionErrors(s, options, fs[..|fs| - 1])
        + (if Fails(s, options, f) then [RuntimeErrorDiagnostic(EntryResult(s, options, f).error)] else [])
  }

  /** The artifacts of the entry points among `fs` that compile, in order. */
  function FunctionArtifacts(s: Session, options: CompileOptions, fs: seq<ContractFunctionMeta>)
    : seq<ContractFunction>
    requires VisibilityKnown(s, options, fs)
    decreases |fs|
  {
    if fs == [] then []
    else
      var f := fs[|fs| - 1];
      VisibilityKnownPrefix(s, options, fs, |fs| - 1);
      FunctionArtifacts(s, options, fs[..|fs| - 1])
        + (if Compiles(s, options, f) then [ContractFunctionOf(s, f, EntryResult(s, options, f).value)] else [])
  }

  /** The lowering warnings of the entry points among `fs` that compile, in order. */
  function FunctionWarnings(s: Session, options: CompileOptions, fs: seq<ContractFunctionMeta>)
    : seq<SsaReport>
    decreases |fs|
  {
    if fs == [] then []
    else
      var f := fs[|fs| - 1];
      FunctionWarnings(s, options, fs[..|fs| - 1])
        + (if Compiles(s, options, f) then EntryResult(s, options, f).value.warnings else [])
  }

  function DebugInfos(functions: seq<ContractFunction>): seq<DebugInfo>
  {
    seq(|functions|, i requires 0 <= i < |functions| => functions[i].debug)
  }

  function Events(s: Session, events: seq<StructId>): seq<ContractEvent>
  {
    seq(|events|, i requires 0 <= i < |events| => s.eventFromStruct(events[i]))
  }

  /** The contract artifact built from its compiled functions and their warnings. */
  function AssembleContract(s: Session, contract: Contract, functions: seq<ContractFunction>,
                            warnings: seq<SsaReport>): CompiledContract
  {
    CompiledContract(
      contract.name,
      functions,
      Events(s, contract.events),
      s.filterRelevantFiles(DebugInfos(functions)),
      ArtifactVersion(s),
      warnings)
  }

  /**
   * Compiles every entry point of `contract`, skipping the other functions, recording each
   * lowering failure and carrying on; fails with exactly those failures if there were any.
   */
  method CompileContractInner(s: Session, contract: Contract, options: CompileOptions)
    returns (r: Result<CompiledContract, seq<FileDiagnostic>>)
    requires VisibilityKnown(s, options, contract.functions)
    ensures r.Err? <==> FunctionErrors(s, options, contract.functions) != []
    ensures r.Err? ==> r.error == FunctionErrors(s, options, contract.functions)
    ensures r.Ok? ==> r.value == AssembleContract(s, contract,
      FunctionArtifacts(s, options, contract.functions), FunctionWarnings(s, options, contract.functions))
  {
    var fs := contract.functions;
    var functions: seq<ContractFunction> := [];
    var errors: seq<FileDiagnostic> := [];
    var warnings: seq<SsaReport> := [];
    for i := 0 to |fs|
      invariant VisibilityKnown(s, options, fs[..i])
      invariant functions == FunctionArtifacts(s, options, fs[..i])
      invariant errors == FunctionErrors(s, options, fs[..i])
      invariant warnings == FunctionWarnings(s, options, fs[..i])
    {
      assert fs[..i + 1][..i] == fs[..i];
      VisibilityKnownPrefix(s, options, fs, i + 1);
      if !fs[i].isEntryPoint {
        continue;
      }
      var compiled := CompileNoCheck(s, options, fs[i].functionId, None, true);
      if compiled.Err? {
        errors := errors + [RuntimeErrorDiagnostic(compiled.error)];
        continue;
      }
      var program := compiled.value;
      warnings := warnings + program.warnings;
      assert fs[i] in fs;
      functions := functions + [ContractFunctionOf(s, fs[i], program)];
    }
    assert fs[..|fs|] == fs;
    if errors == [] {
      r := Ok(AssembleContract(s, contract, functions, warnings));
    } else {
      r := Err(errors);
    }
  }

  // ================================================================ contracts

  const TooManyContractsError: FileDiagnostic := InFile(FromMessage(TooManyContractsMessage), DefaultFileId)
  const NoContractError: FileDiagnostic := InFile(FromMessage(NoContractMessage), DefaultFileId)

  /**
   * Checks the crate and compiles its one contract. Zero or several contracts are single
   * default-file errors; per-function failures are accumulated after the check warnings, and a
   * success hands back only the check warnings.
   */
  method CompileContract(s: Session, crateId: CrateId, options: CompileOptions)
    returns (r: CompilationResult<CompiledContract>)
    requires CheckCrate(s, crateId, options.denyWarnings).Ok? && |s.getAllContracts(crateId)| == 1 ==>
      VisibilityKnown(s, options, s.getAllContracts(crateId)[0].functions)
    ensures var check := CheckCrate(s, crateId, options.denyWarnings);
      check.Err? ==> r == Err(check.error)
    ensures var check := CheckCrate(s, crateId, options.denyWarnings);
      check.Ok? && |s.getAllContracts(crateId)| > 1 ==> r == Err([TooManyContractsError])
    ensures var check := CheckCrate(s, crateId, options.denyWarnings);
      check.Ok? && |s.getAllContracts(crateId)| == 0 ==> r == Err([NoContractError])
    ensures var check, contracts := CheckCrate(s, crateId, options.denyWarnings), s.getAllContracts(crateId);
      check.Ok? && |contracts| == 1 ==>
      var fs := contracts[0].functions;
      && (r.Ok? <==> FunctionErrors(s, options, fs) == [])
      && (r.Ok? ==> r.value == (AssembleContract(s, contracts[0], FunctionArtifacts(s, options, fs),
                                                 FunctionWarnings(s, options, fs)), check.value.1))
      && (r.Err? ==> r.error == check.value.1 + FunctionErrors(s, options, fs))
    ensures r.Ok? && options.denyWarnings ==> r.value.1 == []
    ensures r.Err? ==> |r.error| > 0
  {
    var check := CheckCrate(s, crateId, options.denyWarnings);
    if check.Err? {
      return Err(check.error);
    }
    var warnings := check.value.1;
    var contracts := s.getAllContracts(crateId);
    var compiledContracts: seq<CompiledContract> := [];
    var errors := warnings;
    if |contracts| > 1 {
      return Err([TooManyContractsError]);
    } else if |contracts| == 0 {
      return Err([NoContractError]);
    }
    ghost var fs := contracts[0].functions;
    for i := 0 to |contracts|
      invariant i == 0 ==> compiledContracts == [] && errors == warnings
      invariant i == 1 && FunctionErrors(s, options, fs) == [] ==>
        errors == warnings
        && compiledContracts == [AssembleContract(s, contracts[0], FunctionArtifacts(s, options, fs),
                                                  FunctionWarnings(s, options, fs))]
      invariant i == 1 && FunctionErrors(s, options, fs) != [] ==>
        compiledContracts == [] && errors == warnings + FunctionErrors(s, options, fs)
    {
      var result := CompileContractInner(s, contracts[i], options);
      match result {
        case Ok(contract) => compiledContracts := compiledContracts + [contract];
        case Err(moreErrors) => errors := errors + moreErrors;
      }
    }
    if FunctionErrors(s, options, fs) != [] {
      FunctionErrorsAreErrors(s, options, fs);
      HasErrorsAppend(warnings, FunctionErrors(s, options, fs), options.denyWarnings);
    }
    if HasErrors(errors, options.denyWarnings) {
      r := Err(errors);
    } else {
      // the single-contract assertion of `compile_contract`
      assert |compiledContracts| == 1;
      r := Ok((compiledContracts[0], errors));
    }
  }

  // ================================================================ properties of the contract loop

  /** The entry points among `fs`, in order. */
  function EntryPoints(fs: seq<ContractFunctionMeta>): (es: seq<ContractFunctionMeta>)
    ensures forall f :: f in es <==> f in fs && f.isEntryPoint
    decreases |fs|
  {
    if fs == [] then []
    else
      var f := fs[|fs| - 1];
      var init := EntryPoints(fs[..|fs| - 1]);
      assert fs == fs[..|fs| - 1] + [f];
      init + (if f.isEntryPoint then [f] else [])
  }

  /** A failure list holds nothing but errors. */
  lemma {:induction false} FunctionErrorsAreErrors(s: Session, options: CompileOptions, fs: seq<ContractFunctionMeta>)
    ensures forall i :: 0 <= i < |FunctionErrors(s, options, fs)| ==> FunctionErrors(s, options, fs)[i].diagnostic.isError
    decreases |fs|
  {
    if fs != [] {
      FunctionErrorsAreErrors(s, options, fs[..|fs| - 1]);
    }
  }

  /**
   * The failure list is exactly the failing entry points: each failing entry point is in it,
   * and each of its entries comes from one.
   */
  lemma {:induction false} FunctionErrorsAreTheFailures(s: Session, options: CompileOptions, fs: seq<ContractFunctionMeta>)
    ensures forall i :: 0 <= i < |fs| && Fails(s, options, fs[i]) ==>
      RuntimeErrorDiagnostic(EntryResult(s, options, fs[i]).error) in FunctionErrors(s, options, fs)
    ensures forall d :: d in FunctionErrors(s, options, fs) ==>
      exists i :: 0 <= i < |fs| && Fails(s, options, fs[i]) && d == RuntimeErrorDiagnostic(EntryResult(s, options, fs[i]).error)
    decreases |fs|
  {
    if fs != [] {
      var init := fs[..|fs| - 1];
      FunctionErrorsAreTheFailures(s, options, init);
      assert forall i :: 0 <= i < |init| ==> init[i] == fs[i];
    }
  }

  /** A contract compiles exactly when all of its entry points do. */
  lemma FunctionErrorsEmptyIff(s: Session, options: CompileOptions, fs: seq<ContractFunctionMeta>)
    ensures FunctionErrors(s, options, fs) == [] <==> forall i :: 0 <= i < |fs| ==> !Fails(s, options, fs[i])
  {
    FunctionErrorsAreTheFailures(s, options, fs);
    if FunctionErrors(s, options, fs) != [] {
      assert FunctionErrors(s, options, fs)[0] in FunctionErrors(s, options, fs);
    }
  }

  /** Functions that are not entry points contribute no artifact, warning or error. */
  lemma {:induction false} NonEntryPointsSkipped(s: Session, options: CompileOptions, fs: seq<ContractFunctionMeta>)
    requires VisibilityKnown(s, options, fs)
    ensures VisibilityKnown(s, options, EntryPoints(fs))
    ensures FunctionErrors(s, options, EntryPoints(fs)) == FunctionErrors(s, options, fs)
    ensures FunctionArtifacts(s, options, EntryPoints(fs)) == FunctionArtifacts(s, options, fs)
    ensures FunctionWarnings(s, options, EntryPoints(fs)) == FunctionWarnings(s, options, fs)
    decreases |fs|
  {
    if fs != [] {
      var init, f := fs[..|fs| - 1], fs[|fs| - 1];
      VisibilityKnownPrefix(s, options, fs, |fs| - 1);
      NonEntryPointsSkipped(s, options, init);
      var es := EntryPoints(init);
      if f.isEntryPoint {
        assert EntryPoints(fs) == es + [f];
        assert (es + [f])[..|es|] == es;
      } else {
        assert EntryPoints(fs) == es;
      }
    }
  }

  /** Without failures, artifact k is the compiled form of entry point k. */
  lemma {:induction false} ArtifactsFollowEntryPoints(s: Session, options: CompileOptions, fs: seq<ContractFunctionMeta>)
    requires VisibilityKnown(s, options, fs)
    requires FunctionErrors(s, options, fs) == []
    ensures |FunctionArtifacts(s, options, fs)| == |EntryPoints(fs)|
    ensures forall k :: 0 <= k < |EntryPoints(fs)| ==>
      var e := EntryPoints(fs)[k];
      && Compiles(s, options, e)
      && s.functionModifiers(e.functionId).contractFunctionType.Some?
      && FunctionArtifacts(s, options, fs)[k] == ContractFunctionOf(s, e, EntryResult(s, options, e).value)
    decreases |fs|
  {
    if fs != [] {
      var init, f := fs[..|fs| - 1], fs[|fs| - 1];
      VisibilityKnownPrefix(s, options, fs, |fs| - 1);
      ArtifactsFollowEntryPoints(s, options, init);
      assert f in fs;
    }
  }
}
