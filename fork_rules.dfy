/**
 * The fork-gated consensus rules of a seal engine: which transactions a block
 * at a given height may contain, decided against the fork heights of the chain
 * configuration.  Everything here is a pure function of its arguments.
 */
module ForkRules {

  /** 2^256, the bound of the unsigned 256-bit integers used for heights and amounts. */
  const U256Limit: nat := 0x1_0000_0000_0000_0000_0000_0000_0000_0000_0000_0000_0000_0000_0000_0000_0000_0000

  type U256 = n: nat | n < U256Limit

  /** The order of the secp256k1 group; EIP-2 rejects signatures with s above half of it. */
  const Secp256k1N: nat := 0xFFFF_FFFF_FFFF_FFFF_FFFF_FFFF_FFFF_FFFE_BAAE_DCE6_AF48_A03B_BFD2_5E8C_D036_4141

  /**
   * The bit set of validation categories a caller asks for.  Only two bits
   * matter here; their values are the ones the node's ImportRequirements
   * enumeration gives them.
   */
  type ImportRequirements = bv32

  const TransactionBasic: ImportRequirements := 8
  const TransactionSignatures: ImportRequirements := 32

  predicate Requested(ir: ImportRequirements, check: ImportRequirements)
  {
    ir & check != 0
  }

  /** The per-block fee and gas table; its contents are not part of this model. */
  type EVMSchedule

  /** The chain configuration an engine is bound to. */
  datatype ChainParams = ChainParams(
    sealEngineName: string,
    homesteadForkBlock: U256,
    EIP158ForkBlock: U256,
    constantinopleForkBlock: U256,
    scheduleForBlockNumber: U256 -> EVMSchedule,
    blockReward: EVMSchedule -> U256)

  datatype BlockHeader = BlockHeader(number: U256)

  /**
   * The signature part of a transaction: none at all, the all-zero signature
   * (r = s = 0) of a system transaction, or an ordinary signature of which
   * only its s component matters to these rules.
   */
  datatype Signature = Unsigned | ZeroSignature | Signed(s: U256)

  datatype Transaction = Transaction(
    value: U256,
    gasPrice: U256,
    nonce: U256,
    signature: Signature,
    replayProtected: bool)

  predicate HasSignature(t: Transaction)
  {
    !t.signature.Unsigned?
  }

  predicate HasZeroSignature(t: Transaction)
  {
    t.signature.ZeroSignature?
  }

  function SignatureS(t: Transaction): (s: U256)
  {
    if t.signature.Signed? then t.signature.s else 0
  }

  /** Outcome of checking one transaction; the failures are the exceptions the node raises. */
  datatype Outcome =
    | Ok
    | InvalidSignature
    | InvalidZeroSignatureTransaction(gotGasPrice: U256, gotValue: U256, gotNonce: U256)

  /** The EIP-2 low-s test: an s above secp256k1n/2 is an invalid signature. */
  function CheckLowS(t: Transaction): (r: Outcome)
  {
    if SignatureS(t) > Secp256k1N / 2 then InvalidSignature else Ok
  }

  // The conditions under which each of the four checks fires, in the order the node applies them.

  /** Gate 1: a replay-protected (EIP-155) signature in a block before the Spurious Dragon fork. */
  predicate ReplayProtectedTooEarly(p: ChainParams, ir: ImportRequirements, t: Transaction, h: BlockHeader)
  {
    Requested(ir, TransactionSignatures) && h.number < p.EIP158ForkBlock && t.replayProtected
  }

  /** Gate 2: a zero signature in a block before the Constantinople fork. */
  predicate ZeroSignatureTooEarly(p: ChainParams, ir: ImportRequirements, t: Transaction, h: BlockHeader)
  {
    Requested(ir, TransactionSignatures) && h.number < p.constantinopleForkBlock && HasZeroSignature(t)
  }

  /** Gate 3: a zero-signature transaction from Constantinople on that carries value, gas price or nonce. */
  predicate ZeroSignatureWithPayload(p: ChainParams, ir: ImportRequirements, t: Transaction, h: BlockHeader)
  {
    Requested(ir, TransactionBasic) && h.number >= p.constantinopleForkBlock && HasZeroSignature(t) &&
    (t.value != 0 || t.gasPrice != 0 || t.nonce != 0)
  }

  /** Gate 4: from Homestead on, a signed transaction is subject to the low-s test. */
  predicate LowSApplies(p: ChainParams, ir: ImportRequirements, t: Transaction, h: BlockHeader)
  {
    h.number >= p.homesteadForkBlock && Requested(ir, TransactionSignatures) && HasSignature(t)
  }

  /**
   * The seal engine's transaction check.  The last argument is accepted and
   * ignored, as in the engine interface.  The checks run one after the other
   * and the first that fails decides the outcome.
   */
  function VerifyTransaction(p: ChainParams, ir: ImportRequirements, t: Transaction, h: BlockHeader, gasUsed: U256): (r: Outcome)
    ensures ReplayProtectedTooEarly(p, ir, t, h) ==> r == InvalidSignature
    ensures ZeroSignatureTooEarly(p, ir, t, h) ==> r == InvalidSignature
    ensures ZeroSignatureWithPayload(p, ir, t, h) ==>
              r == if ReplayProtectedTooEarly(p, ir, t, h) then InvalidSignature
                   else InvalidZeroSignatureTransaction(t.gasPrice, t.value, t.nonce)
    ensures r.InvalidZeroSignatureTransaction? ==>
              ZeroSignatureWithPayload(p, ir, t, h) && !ReplayProtectedTooEarly(p, ir, t, h) &&
              r.gotGasPrice == t.gasPrice && r.gotValue == t.value && r.gotNonce == t.nonce
    ensures r == InvalidSignature ==>
              ReplayProtectedTooEarly(p, ir, t, h) || ZeroSignatureTooEarly(p, ir, t, h) ||
              (LowSApplies(p, ir, t, h) && SignatureS(t) > Secp256k1N / 2)
    ensures !Requested(ir, TransactionSignatures) && !Requested(ir, TransactionBasic) ==> r == Ok
  {
    if ReplayProtectedTooEarly(p, ir, t, h) then InvalidSignature
    else if ZeroSignatureTooEarly(p, ir, t, h) then InvalidSignature
    else if ZeroSignatureWithPayload(p, ir, t, h) then
      InvalidZeroSignatureTransaction(t.gasPrice, t.value, t.nonce)
    else if LowSApplies(p, ir, t, h) then CheckLowS(t)
    else Ok
  }

  // ---------------------------------------------------------------------------
  // The diagnostic of the zero-signature payload check as the node attaches it.
  // It attaches the gas price, the value and the nonce one after the other,
  // all under the same "got" tag, and an exception keeps one value per tag.

  /** The "got" slot of a thrown exception: empty, or the one value it keeps. */
  datatype GotInfo = NothingAttached | Got(value: U256)

  /** Attaching under a tag that already holds a value replaces that value. */
  function AttachGot(info: GotInfo, v: U256): GotInfo
  {
    Got(v)
  }

  /**
   * The diagnostic the node's exception actually carries: of the three values
   * attached, only the last, the nonce, survives.
   */
  function ThrownZeroSignatureDiagnostic(t: Transaction): (info: GotInfo)
    ensures info == Got(t.nonce)
  {
    AttachGot(AttachGot(AttachGot(NothingAttached, t.gasPrice), t.value), t.nonce)
  }

  /**
   * A zero-signature transaction whose only payload is a value of 1: the
   * check rejects it, and the intended diagnostic names the value, but the
   * thrown exception reports only the nonce, 0.
   */
  lemma ZeroSignatureDiagnosticLosesValue(p: ChainParams)
    ensures var t := Transaction(1, 0, 0, ZeroSignature, false);
            var h := BlockHeader(p.constantinopleForkBlock);
            VerifyTransaction(p, TransactionBasic, t, h, 0) == InvalidZeroSignatureTransaction(0, 1, 0) &&
            ThrownZeroSignatureDiagnostic(t) == Got(0)
  {
  }

  // ---------------------------------------------------------------------------
  // A reference definition: the four checks as independent outcomes, and the
  // rule that they are evaluated in order with the first failure winning.

  /** Each check evaluated on its own, none consulting another, in the order the node applies them. */
  function Gates(p: ChainParams, ir: ImportRequirements, t: Transaction, h: BlockHeader): (gs: seq<Outcome>)
    ensures |gs| == 4
  {
    [ if ReplayProtectedTooEarly(p, ir, t, h) then InvalidSignature else Ok,
      if ZeroSignatureTooEarly(p, ir, t, h) then InvalidSignature else Ok,
      if ZeroSignatureWithPayload(p, ir, t, h) then InvalidZeroSignatureTransaction(t.gasPrice, t.value, t.nonce) else Ok,
      if LowSApplies(p, ir, t, h) then CheckLowS(t) else Ok ]
  }

  /** The position of the first failing outcome, or the length if none fails. */
  function FailureIndex(outcomes: seq<Outcome>): (i: nat)
    ensures i <= |outcomes|
    ensures forall j :: 0 <= j < i ==> outcomes[j] == Ok
    ensures i < |outcomes| ==> outcomes[i] != Ok
  {
    if outcomes == [] || outcomes[0] != Ok then 0 else 1 + FailureIndex(outcomes[1..])
  }

  /** The outcome of a sequence of checks that stops at the first failure. */
  function FirstFailure(outcomes: seq<Outcome>): (r: Outcome)
    ensures r == Ok <==> forall j :: 0 <= j < |outcomes| ==> outcomes[j] == Ok
  {
    var i := FailureIndex(outcomes);
    if i < |outcomes| then outcomes[i] else Ok
  }

  /** Whatever position first fails, its outcome is the outcome of the whole sequence. */
  lemma FirstFailureAt(outcomes: seq<Outcome>, k: nat)
    requires k < |outcomes| && outcomes[k] != Ok
    requires forall j :: 0 <= j < k ==> outcomes[j] == Ok
    ensures FirstFailure(outcomes) == outcomes[k]
  {
  }

  /** The straight-line check is the ordered, first-failure-wins evaluation of the four gates. */
  lemma VerifyTransactionIsFirstFailure(p: ChainParams, ir: ImportRequirements, t: Transaction, h: BlockHeader, gasUsed: U256)
    ensures VerifyTransaction(p, ir, t, h, gasUsed) == FirstFailure(Gates(p, ir, t, h))
  {
    var gs := Gates(p, ir, t, h);
    if gs[0] != Ok {
      FirstFailureAt(gs, 0);
    } else if gs[1] != Ok {
      FirstFailureAt(gs, 1);
    } else if gs[2] != Ok {
      FirstFailureAt(gs, 2);
    } else if gs[3] != Ok {
      FirstFailureAt(gs, 3);
    }
  }

  /** Ordering: the earliest failing gate decides, whatever the later gates say. */
  lemma EarliestFailingGateDecides(p: ChainParams, ir: ImportRequirements, t: Transaction, h: BlockHeader, gasUsed: U256, k: nat)
    requires k < 4 && Gates(p, ir, t, h)[k] != Ok
    requires forall j :: 0 <= j < k ==> Gates(p, ir, t, h)[j] == Ok
    ensures VerifyTransaction(p, ir, t, h, gasUsed) == Gates(p, ir, t, h)[k]
  {
    VerifyTransactionIsFirstFailure(p, ir, t, h, gasUsed);
    FirstFailureAt(Gates(p, ir, t, h), k);
  }

  /** A transaction is admitted exactly when every one of the four gates passes. */
  lemma AdmittedIffAllGatesPass(p: ChainParams, ir: ImportRequirements, t: Transaction, h: BlockHeader, gasUsed: U256)
    ensures VerifyTransaction(p, ir, t, h, gasUsed) == Ok <==>
              forall j :: 0 <= j < 4 ==> Gates(p, ir, t, h)[j] == Ok
  {
    VerifyTransactionIsFirstFailure(p, ir, t, h, gasUsed);
  }

  // ---------------------------------------------------------------------------
  // Properties of the individual gates.

  /** With only basic checks requested, the zero-signature payload check is the only one that can fail. */
  lemma OnlyBasicChecksRequested(p: ChainParams, ir: ImportRequirements, t: Transaction, h: BlockHeader, gasUsed: U256)
    requires !Requested(ir, TransactionSignatures)
    ensures VerifyTransaction(p, ir, t, h, gasUsed) ==
              if ZeroSignatureWithPayload(p, ir, t, h)
              then InvalidZeroSignatureTransaction(t.gasPrice, t.value, t.nonce) else Ok
  {
  }

  /** A zero-signature transaction with no value, gas price or nonce passes the payload check. */
  lemma EmptyZeroSignatureTransactionPassesPayloadCheck(p: ChainParams, ir: ImportRequirements, t: Transaction, h: BlockHeader, gasUsed: U256)
    requires HasZeroSignature(t) && t.value == 0 && t.gasPrice == 0 && t.nonce == 0
    requires h.number >= p.constantinopleForkBlock
    requires !ReplayProtectedTooEarly(p, ir, t, h)
    ensures VerifyTransaction(p, ir, t, h, gasUsed) == Ok
  {
  }

  /**
   * Where the low-s gate applies to an ordinary signature that the replay
   * gate lets through, the outcome is exactly that of the EIP-2 test.
   */
  lemma LowSDecidesSignedTransaction(p: ChainParams, ir: ImportRequirements, t: Transaction, h: BlockHeader, gasUsed: U256)
    requires t.signature.Signed? && LowSApplies(p, ir, t, h)
    requires !ReplayProtectedTooEarly(p, ir, t, h)
    ensures VerifyTransaction(p, ir, t, h, gasUsed) == CheckLowS(t)
    ensures VerifyTransaction(p, ir, t, h, gasUsed) == Ok <==> t.signature.s <= Secp256k1N / 2
  {
  }

  /** Outside the low-s gate, the s value of the signature is never consulted. */
  lemma LowSNotConsultedOutsideGate(p: ChainParams, ir: ImportRequirements, t: Transaction, h: BlockHeader, gasUsed: U256, s': U256)
    requires t.signature.Signed? && !LowSApplies(p, ir, t, h)
    ensures VerifyTransaction(p, ir, t, h, gasUsed) ==
            VerifyTransaction(p, ir, t.(signature := Signed(s')), h, gasUsed)
  {
  }

  /** The boundary of the EIP-2 test: s = secp256k1n/2 passes, one more fails. */
  lemma LowSBoundary(p: ChainParams, ir: ImportRequirements, t: Transaction, h: BlockHeader, gasUsed: U256)
    requires LowSApplies(p, ir, t, h) && !ReplayProtectedTooEarly(p, ir, t, h)
    requires t.signature == Signed(Secp256k1N / 2)
    ensures VerifyTransaction(p, ir, t, h, gasUsed) == Ok
    ensures VerifyTransaction(p, ir, t.(signature := Signed(Secp256k1N / 2 + 1)), h, gasUsed) == InvalidSignature
  {
  }

  /** The unnamed last argument has no effect on the outcome. */
  lemma GasUsedIgnored(p: ChainParams, ir: ImportRequirements, t: Transaction, h: BlockHeader, g1: U256, g2: U256)
    ensures VerifyTransaction(p, ir, t, h, g1) == VerifyTransaction(p, ir, t, h, g2)
  {
  }

  /**
   * The check reads only the three fork heights of the configuration: two
   * configurations that agree on them decide every transaction alike.
   */
  lemma OnlyForkHeightsMatter(p: ChainParams, q: ChainParams, ir: ImportRequirements, t: Transaction, h: BlockHeader, gasUsed: U256)
    requires p.homesteadForkBlock == q.homesteadForkBlock
    requires p.EIP158ForkBlock == q.EIP158ForkBlock
    requires p.constantinopleForkBlock == q.constantinopleForkBlock
    ensures VerifyTransaction(p, ir, t, h, gasUsed) == VerifyTransaction(q, ir, t, h, gasUsed)
  {
  }
}
