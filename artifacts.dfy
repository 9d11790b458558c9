/**
 * Values exchanged between the driver and its collaborators: diagnostics, circuits, ABIs, debug
 * information and the compiled program and contract artifacts.
 */
module Artifacts {
  import opened Common
  import opened Fm

  type FuncId = nat
  type StructId = nat

  // ---------------------------------------------------------------- diagnostics

  /** A diagnostic not yet attached to a file; `isError` separates errors from warnings. */
  datatype CustomDiagnostic = CustomDiagnostic(message: string, isError: bool)

  /** A diagnostic anchored to a file. */
  datatype FileDiagnostic = FileDiagnostic(fileId: FileId, diagnostic: CustomDiagnostic)

  /** `CustomDiagnostic::from_message`: a plain error. */
  function FromMessage(message: string): CustomDiagnostic
  {
    CustomDiagnostic(message, true)
  }

  /** `CustomDiagnostic::in_file`. */
  function InFile(d: CustomDiagnostic, file: FileId): FileDiagnostic
  {
    FileDiagnostic(file, d)
  }

  /** A frontend error (definition collection, resolution, type checking) with its diagnostic form. */
  datatype CompilerError = CompilerError(diagnostic: CustomDiagnostic)

  /** `CompilerError -> CustomDiagnostic` (the `into()` conversion). */
  function IntoDiagnostic(e: CompilerError): CustomDiagnostic
  {
    e.diagnostic
  }

  /** A fatal error of circuit lowering. */
  datatype RuntimeError = RuntimeError(message: string, fileId: FileId)

  /** `FileDiagnostic::from(RuntimeError)`: lowering errors are never warnings. */
  function RuntimeErrorDiagnostic(e: RuntimeError): FileDiagnostic
  {
    FileDiagnostic(e.fileId, CustomDiagnostic(e.message, true))
  }

  /** A warning produced while lowering to SSA/ACIR. */
  datatype SsaReport = SsaReport(message: string, fileId: FileId)

  /** `FileDiagnostic::from(SsaReport)`. */
  function SsaReportDiagnostic(w: SsaReport): FileDiagnostic
  {
    FileDiagnostic(w.fileId, CustomDiagnostic(w.message, false))
  }

  /** Lowering warnings as diagnostics, one per warning and in order; none of them is an error. */
  function ReportDiagnostics(ws: seq<SsaReport>): (ds: seq<FileDiagnostic>)
    ensures |ds| == |ws|
    ensures forall i :: 0 <= i < |ws| ==>
      && !ds[i].diagnostic.isError
      && ds[i].fileId == ws[i].fileId
      && ds[i].diagnostic.message == ws[i].message
  {
    seq(|ws|, i requires 0 <= i < |ws| => SsaReportDiagnostic(ws[i]))
  }

  /** Result of a compilation step: the artifact with its warnings, or errors and warnings. */
  type CompilationResult<T> = Result<(T, seq<FileDiagnostic>), seq<FileDiagnostic>>

  // ---------------------------------------------------------------- circuits

  /** Black-box function calls; only the Pedersen hash is singled out by the driver. */
  datatype BlackBoxFuncCall = PedersenHash | OtherBlackBox(name: string)

  datatype Opcode =
    | Arithmetic
    | BlackBoxCall(call: BlackBoxFuncCall)
    | Directive
    | Brillig
    | MemoryOp
    | MemoryInit

  datatype Circuit = Circuit(opcodes: seq<Opcode>)

  /** The proving system's constraint language (`acvm::Language`). */
  datatype Language = R1CS | PlonkCSat(width: nat)

  // ---------------------------------------------------------------- ABI

  datatype AbiType = AbiType(name: string)
  datatype AbiVisibility = Public | Private
  datatype AbiParameter = AbiParameter(name: string, typ: AbiType, visibility: AbiVisibility)
  datatype Abi = Abi(parameters: seq<AbiParameter>, returnType: Option<AbiType>)

  // ---------------------------------------------------------------- debug information

  /** Source locations of a circuit, by the files they fall in. */
  datatype DebugInfo = DebugInfo(locations: seq<FileId>)
  datatype DebugFile = DebugFile(path: string, source: string)
  type FileMap = map<FileId, DebugFile>

  // ---------------------------------------------------------------- artifacts

  /** The compiled form of a single entry point; `hash` is the cache key. */
  datatype CompiledProgram = CompiledProgram(
    hash: u64,
    circuit: Circuit,
    abi: Abi,
    debug: DebugInfo,
    fileMap: FileMap,
    noirVersion: string,
    warnings: seq<SsaReport>)

  datatype ContractFunctionType = Secret | Open | Unconstrained

  datatype ContractFunction = ContractFunction(
    name: string,
    functionType: ContractFunctionType,
    isInternal: bool,
    abi: Abi,
    bytecode: Circuit,
    debug: DebugInfo)

  /** An event a contract may emit, described by its struct layout. */
  datatype ContractEvent = ContractEvent(name: string, fields: seq<(string, AbiType)>)

  datatype CompiledContract = CompiledContract(
    name: string,
    functions: seq<ContractFunction>,
    events: seq<ContractEvent>,
    fileMap: FileMap,
    noirVersion: string,
    warnings: seq<SsaReport>)
}
