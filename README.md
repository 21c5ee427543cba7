# Seal engine consensus rules, modelled in Dafny

This project models the consensus-rule core of cpp-ethereum's seal engines
(`libethcore/SealEngine.cpp`):

- **Fork-gated transaction admissibility** (`SealEngineFace::verifyTransaction`).
  Four checks run in a fixed order, and the first one that fails decides the outcome:
  1. A replay-protected (EIP-155) signature in a block below `EIP158ForkBlock` is an invalid signature.
  2. A zero signature in a block below `constantinopleForkBlock` is an invalid signature.
  3. From `constantinopleForkBlock` on, a zero-signature transaction must carry no value, gas price or nonce.
     Otherwise it fails with `InvalidZeroSignatureTransaction`.
     The node attaches the gas price, value and nonce to that exception, but only the nonce survives (see "## Findings").
  4. From `homesteadForkBlock` on, a signed transaction must pass the EIP-2 low-s test (s ≤ secp256k1n/2).

  Checks 1, 2 and 4 run only when the `TransactionSignatures` import-requirement bit is set.
  Check 3 runs only when the `TransactionBasic` bit is set.
- **Engine creation** (`SealEngineRegistrar::create(ChainOperationParams)`).
  The process-wide registrar holds a table from engine name to factory.
  `create` builds the engine the configuration names and binds the configuration to it.
- **Schedule and reward lookup** (`SealEngineBase::evmSchedule` / `blockReward`).
  Height → schedule → reward, both steps taken from the bound configuration.

Files:

- `fork_rules.dfy`, module `ForkRules`: the pure rules.
  It holds the value types (`ChainParams`, `BlockHeader`, `Transaction`, `Outcome`) and `VerifyTransaction`.
  It also holds an independent reference definition, `Gates` plus `FirstFailure`: each check evaluated on its own, then "first failure wins".
  The lemmas relate the two definitions and state the per-gate properties.
- `seal_engine.dfy`, module `SealEngine`: the imperative part.
  The class `Engine` holds its bound configuration and has `SetChainParams`.
  The class `Registrar` holds a `map` from name to `EngineKind`, with `Register`, `InitNoProof`, `CreateByName` and `Create`.
  A client method, `StartupScenario`, shows what a caller can conclude from those contracts.

Modelling choices:

- Block numbers, amounts and the ignored last argument are `U256`, the naturals below 2^256.
- The import requirements are a `bv32` bit set with `TransactionBasic = 8` and `TransactionSignatures = 32`.
  These values come from the node's `ImportRequirements` enumeration (`libethcore/Common.h`, which is not part of this model).
  No proof depends on the exact values.
- A transaction's signature is `Unsigned`, `ZeroSignature` or `Signed(s)`.
  `hasSignature` and `hasZeroSignature` are read off this datatype.
  A zero signature has s = 0, so it passes the low-s test.
  `checkLowS` is the concrete test `s <= Secp256k1N / 2`, and its failure is `InvalidSignature`.
- `EVMSchedule` is an abstract type. `scheduleForBlockNumber` and `blockReward` are function-valued fields of `ChainParams`.
- Thrown exceptions become `Outcome` values.
  The failed `assert` in `create` becomes a `None` result, which is what a release build returns (a null engine).
- Replay protection (EIP-155, Spurious Dragon) is gated by `EIP158ForkBlock`.
  Zero signatures are gated by `constantinopleForkBlock`.
  The EIP-2 low-s rule is gated by `homesteadForkBlock`.

## Model

| member | source | states |
|---|---|---|
| `ForkRules.VerifyTransaction` | libethcore/SealEngine.cpp:47-69 | A replay-protected transaction below the EIP-158 fork with signature checks requested is `InvalidSignature`. So is a zero-signature transaction below the Constantinople fork. A zero-signature transaction with a nonzero value, gas price or nonce from Constantinople on, with basic checks requested, is `InvalidZeroSignatureTransaction(gasPrice, value, nonce)`, unless the replay gate already fired. That error arises only from that condition and carries exactly the transaction's three fields, the diagnostic the code evidently intends (see "## Findings"). `InvalidSignature` arises only from gate 1, gate 2 or a failed low-s test where that gate applies. With neither requirement bit set, every transaction is admitted. |
| `ForkRules.ThrownZeroSignatureDiagnostic` | libethcore/SealEngine.cpp:64 | As written, the exception for a zero-signature transaction with a payload carries only the nonce: the gas price and value attached before it under the same tag are replaced. |
| `ForkRules.ZeroSignatureDiagnosticLosesValue` | libethcore/SealEngine.cpp:60-64 | Counterexample: a zero-signature transaction with value 1, gas price 0 and nonce 0 at the Constantinople block is rejected. The intended diagnostic names the value 1, but the thrown exception reports only the nonce 0. |
| `ForkRules.FailureIndex` | libethcore/SealEngine.cpp:52-68 | The position of the first failing check: every earlier check passed, and the one at that position failed (or no check failed). |
| `ForkRules.FirstFailure` | libethcore/SealEngine.cpp:52-68 | A sequence of checks stopped at the first failure succeeds exactly when every check succeeds. |
| `ForkRules.FirstFailureAt` | libethcore/SealEngine.cpp:52-68 | If check k fails and all before it pass, the result of the whole sequence is check k's outcome. |
| `ForkRules.VerifyTransactionIsFirstFailure` | libethcore/SealEngine.cpp:52-68 | The straight-line check equals the reference evaluation of the four independent gates, taken in the order the node applies them, first failure winning. |
| `ForkRules.EarliestFailingGateDecides` | libethcore/SealEngine.cpp:52-64 | Gate order is observable: the earliest failing gate decides the outcome whatever later gates say. For example, failing gates 1 and 3 gives `InvalidSignature`. |
| `ForkRules.AdmittedIffAllGatesPass` | libethcore/SealEngine.cpp:47-69 | A transaction is admitted if and only if each of the four gates passes. |
| `ForkRules.OnlyBasicChecksRequested` | libethcore/SealEngine.cpp:52-68 | Without the TransactionSignatures bit, the outcome is exactly that of the zero-signature payload gate, so only `InvalidZeroSignatureTransaction` can occur. |
| `ForkRules.EmptyZeroSignatureTransactionPassesPayloadCheck` | libethcore/SealEngine.cpp:60-64 | A zero-signature transaction with value, gas price and nonce all zero, at or above the Constantinople fork, is admitted unless the replay gate rejects it. |
| `ForkRules.LowSDecidesSignedTransaction` | libethcore/SealEngine.cpp:66-68 | From Homestead on, with signature checks requested, a signed transaction that passes the replay gate gets exactly the low-s test's outcome: admitted if and only if s ≤ secp256k1n/2. |
| `ForkRules.LowSNotConsultedOutsideGate` | libethcore/SealEngine.cpp:67-68 | Where the low-s gate does not apply, changing the signature's s value never changes the outcome. |
| `ForkRules.LowSBoundary` | libethcore/SealEngine.cpp:66-68 | s = secp256k1n/2 passes the low-s gate and s = secp256k1n/2 + 1 fails it with `InvalidSignature`. |
| `ForkRules.GasUsedIgnored` | libethcore/SealEngine.cpp:47 | The unnamed u256 argument has no effect on the outcome. |
| `ForkRules.OnlyForkHeightsMatter` | libethcore/SealEngine.cpp:52-67 | The check reads only the Homestead, EIP-158 and Constantinople fork heights of the configuration. Configurations agreeing on these decide every transaction alike. |
| `SealEngine.Engine.SetChainParams` | libethcore/SealEngine.cpp:76 | Binding sets the engine's configuration to exactly the given parameters. |
| `SealEngine.Engine.VerifyTransaction` | libethcore/SealEngine.cpp:47-69 | On a configured engine, the check is the rule function applied to the bound configuration. An `InvalidZeroSignatureTransaction` needs a block at or above the Constantinople fork. An `InvalidSignature` for an unprotected, non-zero-signature transaction needs a block at or above Homestead and an s above secp256k1n/2. |
| `SealEngine.Engine.EvmSchedule` | libethcore/SealEngine.cpp:80-83 | The schedule is the bound configuration's schedule for that block number. |
| `SealEngine.Engine.BlockReward` | libethcore/SealEngine.cpp:85-89 | The reward is the configuration's reward for the schedule in force at that block number (height → schedule → reward). |
| `SealEngine.Registrar.constructor` | libethcore/SealEngine.cpp:29 | The process-wide registrar starts with no engines registered. |
| `SealEngine.Registrar.Register` | libethcore/SealEngine.cpp:33 | Registration adds or replaces the factory under that name and leaves every other entry as it was. |
| `SealEngine.Registrar.InitNoProof` | libethcore/SealEngine.cpp:31-35 | NoProof's initialisation registers the NoProof engine under its name. |
| `SealEngine.Registrar.CreateByName` | libethcore/SealEngine.cpp:73 | The lookup yields an engine if and only if the name is registered. That engine is fresh, of the registered kind, and unconfigured. |
| `SealEngine.Registrar.Create` | libethcore/SealEngine.cpp:71-78 | `create(params)` yields an engine if and only if `params.sealEngineName` is registered. That engine is fresh, of the registered kind, and its bound configuration equals `params`. An unregistered name yields no engine and binds nothing. |

## Left out

- The console output in `NoProof::init` (line 34) and the debug line at line 51 of `verifyTransaction` are left out: they are I/O and do not affect any outcome.
- `SealEngineFace::verify` and `populateFromParent` (lines 37-45) are left out. They forward to `BlockHeader` methods, and `BlockHeader` is not part of this model.
- How a transaction computes `isReplayProtected`, `hasZeroSignature`, `hasSignature` and `checkLowS` is not modelled (`Transaction.h` and its implementation are not part of this model). They are read from the `Transaction` record as described above.
- The contents of `EVMSchedule` and the reward formula inside `ChainOperationParams::blockReward` are left out. They are opaque functions carried in `ChainParams`.
- The `ETH_REGISTER_SEAL_ENGINE` macro, static-initialisation order and the lazy creation of the `s_this` singleton are left out. Registration is the explicit method `Registrar.Register`, and the singleton is one `Registrar` object.
- SealEngine.Registrar.InitNoProof: registers on every call. In the node, the registration at line 33 is a function-local static, so only the first call to `NoProof::init` in a process registers. A later call does not restore `NoProof` if another factory replaced it in between.
- `SealEngineRegistrar::create(std::string)` is declared in `SealEngine.h`, which is not part of this model. `Registrar.CreateByName` models it as a lookup in the factory table.
- The abort of a debug build when `create` finds no engine is left out. The model returns `None`, as a release build returns a null engine.
- Engine variants other than NoProof (Ethash and the rest) are identified only by name. Their seal algorithms are not part of this model.
- Engine-specific overrides of the transaction check are left out. An engine may override `verifyTransaction` with further checks. `Engine.VerifyTransaction` is the base rule of `SealEngineFace` (lines 47-69) for every engine kind.
- ForkRules.VerifyTransaction: its `InvalidZeroSignatureTransaction` carries the gas price, value and nonce the code evidently means to report. The exception thrown at line 64 keeps only the nonce. That as-written behaviour is modelled separately by `ThrownZeroSignatureDiagnostic` (see "## Findings").
- Thread safety of the registrar and sharing of the configuration between threads are left out, as concurrency.

## Findings

| source | as written | input that shows it | evidently intended | confidence | as-written member | corrected member |
|---|---|---|---|---|---|---|
| libethcore/SealEngine.cpp:64 | The gas price, value and nonce are attached to `InvalidZeroSignatureTransaction` under the same `errinfo_got` tag. An exception keeps one value per tag, so each attachment replaces the previous one and only the nonce is reported. | A zero-signature transaction with value 1, gas price 0 and nonce 0, in the Constantinople block, with basic checks requested: it is rejected, and the exception reports 0. | The exception reports all three offending values: gas price, value and nonce. | not executed; rests on boost::exception keeping one value per error-info tag | `ForkRules.ThrownZeroSignatureDiagnostic`, `ForkRules.ZeroSignatureDiagnosticLosesValue` | `ForkRules.VerifyTransaction` |
