/**
 * Seal engines and the process-wide registrar that builds them by name.  An
 * engine is created unconfigured and becomes usable once the chain
 * configuration is bound to it; its rule checks then read only that
 * configuration.
 */
module SealEngine {
  import opened ForkRules

  datatype Option<T> = None | Some(value: T)

  /**
   * What a registered factory builds.  NoProof is the engine that checks no
   * seal; the other compiled-in engines are told apart by name only.
   */
  datatype EngineKind = NoProof | OtherEngine(name: string)

  const NoProofName: string := "NoProof"

  /** A seal engine, with the chain configuration bound to it (if any). */
  class Engine {
    const kind: EngineKind
    var params: Option<ChainParams>

    constructor (kind: EngineKind)
      ensures this.kind == kind && params == None
    {
      this.kind := kind;
      params := None;
    }

    predicate Configured()
      reads this
    {
      params.Some?
    }

    /** Binds the chain configuration; nothing else about the engine changes. */
    method SetChainParams(p: ChainParams)
      modifies this
      ensures params == Some(p)
    {
      params := Some(p);
    }

    /** The transaction check against the bound configuration. */
    function VerifyTransaction(ir: ImportRequirements, t: Transaction, h: BlockHeader, gasUsed: U256): (r: Outcome)
      reads this
      requires Configured()
      ensures r == ForkRules.VerifyTransaction(params.value, ir, t, h, gasUsed)
      ensures r.InvalidZeroSignatureTransaction? ==> h.number >= params.value.constantinopleForkBlock
      ensures r == InvalidSignature && !t.replayProtected && !HasZeroSignature(t) ==>
                h.number >= params.value.homesteadForkBlock && SignatureS(t) > Secp256k1N / 2
    {
      ForkRules.VerifyTransaction(params.value, ir, t, h, gasUsed)
    }

    /** The fee schedule in force at a block number, as the configuration defines it. */
    function EvmSchedule(blockNumber: U256): (s: EVMSchedule)
      reads this
      requires Configured()
      ensures s == params.value.scheduleForBlockNumber(blockNumber)
    {
      params.value.scheduleForBlockNumber(blockNumber)
    }

    /** The block reward: the configuration's reward for the schedule in force at that height. */
    function BlockReward(blockNumber: U256): (r: U256)
      reads this
      requires Configured()
      ensures r == params.value.blockReward(params.value.scheduleForBlockNumber(blockNumber))
    {
      params.value.blockReward(EvmSchedule(blockNumber))
    }
  }

  /** The registrar: a table from engine name to the factory that builds it. */
  class Registrar {
    var factories: map<string, EngineKind>

    /** A registrar with no engine registered yet. */
    constructor ()
      ensures factories == map[]
    {
      factories := map[];
    }

    /** Registers a factory under a name; a later registration under the same name replaces it. */
    method Register(name: string, kind: EngineKind)
      modifies this
      ensures factories == old(factories)[name := kind]
    {
      factories := factories[name := kind];
    }

    /** Registers the NoProof engine under its own name. */
    method InitNoProof()
      modifies this
      ensures factories == old(factories)[NoProofName := NoProof]
    {
      Register(NoProofName, NoProof);
    }

    /** Builds a fresh, unconfigured engine from the factory registered under a name. */
    method CreateByName(name: string) returns (e: Option<Engine>)
      ensures e.Some? <==> name in factories
      ensures e.Some? ==> fresh(e.value) && e.value.kind == factories[name] && e.value.params == None
    {
      if name in factories {
        var engine := new Engine(factories[name]);
        e := Some(engine);
      } else {
        e := None;
      }
    }

    /**
     * Builds the engine the configuration names and binds the configuration
     * to it.  An unregistered name yields no engine, and nothing is bound.
     */
    method Create(p: ChainParams) returns (e: Option<Engine>)
      ensures e.Some? <==> p.sealEngineName in factories
      ensures e.Some? ==> fresh(e.value) && e.value.kind == factories[p.sealEngineName]
      ensures e.Some? ==> e.value.params == Some(p)
    {
      e := CreateByName(p.sealEngineName);
      if e.Some? {
        e.value.SetChainParams(p);
      }
    }
  }

  /**
   * Start-up as a node performs it: register NoProof, then create engines
   * from configurations that name it and that name nothing registered.
   */
  method StartupScenario(p: ChainParams, unknown: string, ir: ImportRequirements, t: Transaction, h: BlockHeader)
    requires p.sealEngineName == NoProofName && unknown != NoProofName
  {
    var registrar := new Registrar();
    registrar.InitNoProof();
    var e := registrar.Create(p);
    assert e.Some? && e.value.kind == NoProof;
    assert e.value.params.value.sealEngineName == NoProofName;
    var outcome := e.value.VerifyTransaction(ir, t, h, 0);
    assert outcome == ForkRules.VerifyTransaction(p, ir, t, h, 0);
    var missing := registrar.Create(p.(sealEngineName := unknown));
    assert missing.None?;
  }
}
