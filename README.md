# Noir compiler driver and `nargo compile`, modelled in Dafny

This project models the decision logic of two parts of the Noir toolchain:

- **The compiler driver** (`noirc_driver`). It registers a crate and its standard library in a
  file manager and a crate graph. It checks the crate and classifies the diagnostics as a pass
  or a failure. It compiles the crate's `main`, reusing a cached program when the hashes agree.
  It can instead compile the one contract in the crate, tolerating per-function failures until
  the end.
- **The `nargo compile` command**. It splits a workspace into binary and contract packages. It
  builds a per-package program cache from the saved artifacts, forcing a rebuild when a
  different compiler version made them. It declares Pedersen hashing supported on every
  backend, and it turns the per-package compilation results into one success or failure.

The frontend, the SSA pipeline and the backend are foreign to this logic. The frontend and SSA
calls are fields of the `NoircDriver.Session` datatype, typed as functions with the result
shape the driver relies on:

- `collectDefs`: the crate's definition collection;
- `getMainFunction` and `getAllContracts`;
- `monomorphize` and `hash64`;
- `createCircuit`: circuit creation, which gives a circuit, debug info, ABI and SSA warnings,
  or a runtime error;
- `filterRelevantFiles`;
- the interner lookups for names, modifiers, signatures, ABI types and events;
- the build constants that make up `NOIR_ARTIFACT_VERSION_STRING`.

The backend is a set of parameters of the `CompileCmd` functions. `backendInfo` is its answer
about language and opcode support, `isOpcodeSupported` and `opcodeSupport` are its opcode
predicate, and `optimizeProgram` is the optimizer.

The file manager and the crate graph change in place, so they are the classes
`Fm.FileManager` and `CrateGraph.Graph`, held by `NoircDriver.Context`.

The loops of `compile_contract` and `compile_contract_inner` are methods. Their loop invariants
tie them to back-recursive specification functions: `FunctionErrors`, `FunctionArtifacts` and
`FunctionWarnings`. The remaining logic is pure and is modelled as functions.

On the nargo side, the per-package work is given to `CompileWorkspace` and `Run` as function
parameters: preparing the package, compiling the program or contract and optimizing it. These
parameters are the rayon `par_iter` maps, run in sequence. The program pipeline is
`CompileCmd.CompileProgram`.

The doc comment of `check_crate` (compiler/noirc_driver/src/lib.rs:123) says a failure holds at
least one error. The code differs: deny-warnings fails on warnings alone, so the contracts
promise an error in a failure only when warnings are not denied.

## Model

| member | source | states |
|---|---|---|
| Fm.FileManager.AddFile | compiler/noirc_driver/src/lib.rs:82-85 | an unreadable path gives no id and leaves the files alone; a readable one is appended and its id is its position |
| CrateGraph.EdgeFromFreshCrateKeepsAcyclic | compiler/noirc_driver/src/lib.rs:87-89 | adding an edge out of a crate that no edge enters keeps the graph acyclic, so the `std` edges never trip the cycle check |
| CrateGraph.Graph.AddStdlib | compiler/noirc_driver/src/lib.rs:83 | registers a fresh standard-library crate for the file and records it as the stdlib; edges unchanged |
| CrateGraph.Graph.AddCrateRoot | compiler/noirc_driver/src/lib.rs:87 | registers a fresh root crate for the file; edges and stdlib unchanged |
| CrateGraph.Graph.AddCrate | compiler/noirc_driver/src/lib.rs:98 | registers a fresh dependency crate for the file; edges and stdlib unchanged |
| CrateGraph.Graph.AddDep | compiler/noirc_driver/src/lib.rs:114-117 | adds exactly the named edge, keeping the graph acyclic; crates unchanged |
| NoircDriver.Context.PrepareCrate | compiler/noirc_driver/src/lib.rs:80-92 | adds the stdlib file and the root file, registers a stdlib crate and a fresh root crate, and adds the one edge root -`std`-> stdlib |
| NoircDriver.Context.PrepareDependency | compiler/noirc_driver/src/lib.rs:95-105 | adds the file, registers a fresh crate, and adds the one edge crate -`std`-> the existing stdlib |
| NoircDriver.Context.AddDep | compiler/noirc_driver/src/lib.rs:108-118 | adds exactly the named edge; a cyclic edge would abort `add_dep`, so it is excluded |
| NoircDriver.Context.CompileFile | compiler/noirc_driver/src/lib.rs:74-77 | leaves the same files, crates and root -`std`-> stdlib edge as `prepare_crate`, and returns `compile_main` on the new root crate with the default options, no cache and a forced build |
| Artifacts.ReportDiagnostics | compiler/noirc_driver/src/lib.rs:184 | one diagnostic per lowering warning, in order, in the warning's file and with its message, and none of them an error |
| NoircDriver.AnyError | compiler/noirc_driver/src/lib.rs:256 | true exactly when some diagnostic in the list is an error |
| NoircDriver.HasErrors | compiler/noirc_driver/src/lib.rs:252-258 | with deny-warnings: true exactly when the list is non-empty; without it: true exactly when some diagnostic is an error |
| NoircDriver.HasErrorsAppend | compiler/noirc_driver/src/lib.rs:252-258 | a concatenation has errors exactly when either part has |
| NoircDriver.CheckCrate | compiler/noirc_driver/src/lib.rs:124-141 | each collected (error, file) becomes a diagnostic in that file, in order; Err exactly when that list has errors; otherwise Ok with the full list as warnings |
| NoircDriver.WarningsAlonePassUnlessDenied | compiler/noirc_driver/src/lib.rs:136 | without deny-warnings, a crate with only warnings passes the check; with deny-warnings it fails, with those same warnings as the errors, unless it has none |
| NoircDriver.ComputeFunctionAbi | compiler/noirc_driver/src/lib.rs:143-155 | None exactly when there is no `main`; otherwise its parameters as ABI parameters and its return type mapped to an ABI type |
| NoircDriver.CompileNoCheck | compiler/noirc_driver/src/lib.rs:338-373 | the cached program is returned unchanged exactly when nothing forces a build and its hash matches; otherwise a lowering error propagates, or a new program carries the fresh hash, the artifact version and the lowering's outputs |
| NoircDriver.CompileNoCheckIdempotent | compiler/noirc_driver/src/lib.rs:351-357 | with no force, print or show flag set, feeding a compiled program back in as the cache returns that same program |
| NoircDriver.ForcedCompileIgnoresCache | compiler/noirc_driver/src/lib.rs:351 | when force, print-ACIR, show-Brillig or show-SSA is set, the result does not depend on the cache |
| NoircDriver.CompileMain | compiler/noirc_driver/src/lib.rs:161-196 | a failed check propagates verbatim; no `main` is a single default-file error; a lowering error is a single error; under deny-warnings non-empty compile warnings are the failure; otherwise the warnings are check warnings then compile warnings |
| NoircDriver.CompileContractInner | compiler/noirc_driver/src/lib.rs:261-331 | Err exactly when some entry point fails, carrying only the per-function errors; otherwise the contract of the entry points' artifacts in order, their warnings, its events and the artifact version |
| NoircDriver.CompileContract | compiler/noirc_driver/src/lib.rs:199-249 | a failed check propagates; more than one contract or none is a single default-file error; with one contract, Ok exactly when no function failed, with the check warnings only; otherwise check warnings then function errors |
| NoircDriver.EntryPoints | compiler/noirc_driver/src/lib.rs:279-281 | keeps exactly the entry-point functions |
| NoircDriver.FunctionErrorsAreErrors | compiler/noirc_driver/src/lib.rs:286 | every accumulated per-function diagnostic is an error |
| NoircDriver.FunctionErrorsAreTheFailures | compiler/noirc_driver/src/lib.rs:283-288 | every failing entry point contributes its error, and every accumulated error comes from a failing entry point |
| NoircDriver.FunctionErrorsEmptyIff | compiler/noirc_driver/src/lib.rs:308 | no per-function error exactly when no entry point fails |
| NoircDriver.NonEntryPointsSkipped | compiler/noirc_driver/src/lib.rs:279-281 | dropping the non-entry points changes neither the errors, the artifacts nor the warnings |
| NoircDriver.ArtifactsFollowEntryPoints | compiler/noirc_driver/src/lib.rs:290-305 | on success there is one artifact per entry point, in order, made from that function's compiled program and modifiers |
| CompileCmd.PartitionIsSelectionByType | tooling/nargo_cli/src/cli/compile_cmd.rs:67-71 | dropping libraries and partitioning by "binary" is the in-order selection of binaries and of contracts |
| CompileCmd.OfTypeMembers | tooling/nargo_cli/src/cli/compile_cmd.rs:67-71 | a package is selected for a kind exactly when it is a member of that kind |
| CompileCmd.OfTypeCounts | tooling/nargo_cli/src/cli/compile_cmd.rs:67-71 | libraries, binaries and contracts together account for every member |
| CompileCmd.PartitionPackages | tooling/nargo_cli/src/cli/compile_cmd.rs:67-71 | binaries in order on the left, the other non-libraries in order on the right, nothing lost but the libraries |
| CompileCmd.IsOpcodeSupportedPedersenHash | tooling/nargo_cli/src/cli/compile_cmd.rs:213-219 | a Pedersen hash call is supported; any other opcode gets the backend's answer |
| CompileCmd.PedersenOverrideOnlyWidens | tooling/nargo_cli/src/cli/compile_cmd.rs:212-219 | the override never rejects what the backend accepts, and differs from it only on Pedersen hash calls |
| CompileCmd.CachedProgram | tooling/nargo_cli/src/cli/compile_cmd.rs:180-195 | a cached program exists exactly when both artifact reads succeeded, and is made of the program artifact and the first debug symbols |
| CompileCmd.ForceRecompile | tooling/nargo_cli/src/cli/compile_cmd.rs:197-198 | false without a cached program; otherwise true exactly when its version differs from the current one |
| CompileCmd.StaleArtifactNeverServed | tooling/nargo_cli/src/cli/compile_cmd.rs:197-205 | a successful `compile_main` against the cache never returns a program made by another compiler version |
| CompileCmd.CompileProgram | tooling/nargo_cli/src/cli/compile_cmd.rs:167-229 | a `compile_main` failure passes through; a success is the optimized program with the Pedersen override, with its warnings kept |
| CompileCmd.ReportErrors | tooling/nargo_cli/src/cli/compile_cmd.rs:316-339 | Ok(t) exactly when the input is Ok((t, _)); a failure becomes the count of reported errors |
| CompileCmd.CollectReports | tooling/nargo_cli/src/cli/compile_cmd.rs:117-138 | Ok exactly when every result is Ok, with the artifacts in order; otherwise the report of the first failure |
| CompileCmd.CompileWorkspace | tooling/nargo_cli/src/cli/compile_cmd.rs:91-141 | succeeds exactly when every binary and every contract package compiled, with the artifacts in package order; a failure is the report of the first failing program, or of the first failing contract when every program compiled |
| CompileCmd.CompileBinPackage | tooling/nargo_cli/src/cli/compile_cmd.rs:143-165 | a library is refused with `LibraryCrate` before compiling; otherwise the package's reported result |
| CompileCmd.Run | tooling/nargo_cli/src/cli/compile_cmd.rs:55-89 | a backend failure propagates; otherwise succeeds exactly when every binary and every contract member compiled |

## Left out

- File reading and writing are not modelled: reading sources, `read_program_from_file`, `read_debug_artifact_from_file`, `save_program`, `save_contract` and the `save_*_to_file` helpers. The artifact reads are the `programRead` and `debugRead` parameters, and the writes do not affect any result.
- `prepare_package` and the per-package `compile_contract` of `nargo` are the `compileProgram` and `compileContract` parameters of `CompileCmd.CompileWorkspace` and `CompileCmd.Run`. Only the program pipeline is written out, as `CompileCmd.CompileProgram`.
- Manifest lookup and workspace resolution in `run` are not modelled. They are file-system work, so the selected members are a parameter.
- `println!` under print-ACIR and diagnostic rendering in `report_all` are left out because they only produce output. `report_all` is the `reportAll` parameter, which returns the error count.
- The rayon parallel maps are sequential maps; only their order-preserving collection matters to the results.
- The frontend, SSA, ACIR and backend calls are uninterpreted `Session` fields or parameters. `optimize_program` is the `optimizeProgram` parameter.
- The crate graph and file manager implementations are not part of this model. Identifiers are counters. The file manager does not deduplicate paths, and the graph keeps only its crates, edges and stdlib.
- The conversions of errors into diagnostics are not part of this model. Definition-collection errors keep their own error flag. Runtime errors and "not found" messages are errors, and SSA reports are warnings.
- `ContractFunctionType::new` is not shown. An unconstrained function is taken as `Unconstrained`, and otherwise the function's visibility gives the type.
- `tooling/nargo_cli/src/cli/prove_cmd.rs` is not part of this model; it is proving and verification I/O.
- NoircDriver.Context.PrepareCrate: the `unwrap`s on unreadable files are preconditions, not modelled aborts.
- NoircDriver.Context.PrepareDependency: the missing-stdlib abort of `stdlib_crate_id` is a precondition.
- NoircDriver.Context.AddDep: the "cyclic dependency" abort is a precondition that the new edge keeps the graph acyclic.
- NoircDriver.CompileContractInner: the abort on an entry point without a contract visibility is a precondition.
- NoircDriver.CompileContract: the same visibility abort is a precondition on the single contract's functions, passed on to `CompileContractInner`.
- NoircDriver.CheckCrate: `collect_defs` fills the context's definition table in place. Here the table is a fixed `Session` that is independent of `Context`, so the model does not capture that the check changes the context, or that later steps read what it wrote.
- CompileCmd.CachedProgram: the abort of `remove(0)` on an empty debug-symbol list is a precondition.
- CompileCmd.CompileProgram: the `expect` on an optimizer that rejects an opcode is a precondition.
