/**
 The data of the deposit contract: operators, peg-out graphs, contract states, events and duties.

 Identifiers (transaction ids, keys, nonces, signatures) are numbers.  What the bridge takes from
 libraries (graph construction, MuSig2, witness parsing) is a function-valued field of `Cfg`, so
 every result holds for all such functions.
 */
module ContractTypes {
  import opened Collections

  type Txid = nat
  type OpKey = nat
  type OpIdx = nat
  type Height = nat
  type Nonce = nat
  type Partial = nat

  /** A `PogMusigF` value in packed form: one entry for every signed input of a peg-out graph. */
  type Nonces = seq<nat>
  type Partials = seq<nat>

  const NUM_ASSERT_DATA_TX: nat := 3 + 0 + 33 + 3
  const NUM_PAYOUT_OPTIMISTIC_INPUTS: nat := 5
  const NUM_PAYOUT_INPUTS: nat := 4
  const CHALLENGE_VOUT: nat := 1
  const STUB_OPERATOR_IDX: OpIdx := 0xFFFF_FFFF

  /** Whether a wire vector has the length of some packed `PogMusigF` (slash-stake data come in pairs). */
  predicate Unpacks(v: seq<nat>) {
    var fixed := 2 + NUM_ASSERT_DATA_TX + NUM_PAYOUT_OPTIMISTIC_INPUTS + NUM_PAYOUT_INPUTS + 1;
    fixed <= |v| && (|v| - fixed) % 2 == 0
  }

  datatype Operator = Operator(idx: OpIdx, p2pKey: OpKey, btcKey: nat)

  datatype OperatorTable = OperatorTable(pov: OpIdx, operators: seq<Operator>) {
    /** Operators in index order, all three identifiers unique, and this node among them. */
    ghost predicate Valid() {
      && (forall i: nat, j: nat {:trigger Before(i, j)} | i < |operators| && j < |operators| && Before(i, j) ::
            && operators[i].idx < operators[j].idx
            && operators[i].p2pKey != operators[j].p2pKey
            && operators[i].btcKey != operators[j].btcKey)
      && exists o :: o in operators && o.idx == pov
    }

    function Keys(): set<OpKey> {
      set o | o in operators :: o.p2pKey
    }

    function KeySeq(): seq<OpKey> {
      seq(|operators|, i requires 0 <= i < |operators| => operators[i].p2pKey)
    }

    function Size(): nat { |operators| }

    function KeyOfIdx(idx: OpIdx): Option<OpKey> {
      FindIdx(operators, idx)
    }

    function PovKey(): OpKey {
      match KeyOfIdx(pov) case Some(k) => k case None => 0
    }
  }

  function FindIdx(ops: seq<Operator>, idx: OpIdx): (r: Option<OpKey>)
    ensures r.Some? <==> exists o :: o in ops && o.idx == idx
    ensures r.Some? ==> exists o :: o in ops && o.idx == idx && o.p2pKey == r.value
  {
    if ops == [] then None
    else if ops[0].idx == idx then Some(ops[0].p2pKey)
    else
      assert forall o :: o in ops <==> o == ops[0] || o in ops[1..];
      FindIdx(ops[1..], idx)
  }

  lemma KeyFacts(t: OperatorTable)
    requires t.Valid()
    ensures NoDup(t.KeySeq()) && Elems(t.KeySeq()) == t.Keys()
    ensures |t.Keys()| == t.Size() && t.Size() > 0
    ensures t.PovKey() in t.Keys()
  {
    var ks := t.KeySeq();
    forall x ensures x in ks <==> x in t.Keys() {
      if x in t.Keys() {
        var o :| o in t.operators && o.p2pKey == x;
        var i :| 0 <= i < |t.operators| && t.operators[i] == o;
        assert ks[i] == x;
      }
    }
    assert Elems(ks) == t.Keys();
    NoDupSize(ks);
  }

  /** The peg-out graph parameters an operator contributes; both stake outpoints come from `stakeTxid`. */
  datatype GraphInput = GraphInput(stakeTxid: Txid, stakeHash: nat, wotsKeys: nat, payoutKey: nat)

  datatype Summary = Summary(
    stakeTxid: Txid,
    claimTxid: Txid,
    payoutOptimisticTxid: Txid,
    preAssertTxid: Txid,
    assertDataTxids: seq<Txid>,
    postAssertTxid: Txid,
    payoutTxid: Txid)

  /** `signing` stands for the prevouts, sighashes and witnesses to be signed. */
  datatype Graph = Graph(summary: Summary, signing: nat)

  datatype OutPoint = OutPoint(txid: Txid, vout: nat)
  datatype Tx = Tx(txid: Txid, inputs: seq<OutPoint>, outputs: seq<nat>, witnessData: nat)

  predicate IsChallenge(claimTxid: Txid, tx: Tx) {
    && |tx.inputs| > 0 && tx.inputs[0] == OutPoint(claimTxid, CHALLENGE_VOUT)
    && |tx.outputs| == 1
  }

  predicate IsDisprove(postAssertTxid: Txid, tx: Tx) {
    && |tx.inputs| > 1 && tx.inputs[1] == OutPoint(postAssertTxid, 0)
    && |tx.inputs| == 2 && |tx.outputs| == 2
  }

  /** An aggregate is the free sum of its contributions; `Supplied` is one handed in ready-made. */
  datatype GraphSig = Aggregate(nonces: multiset<Nonces>, partials: map<OpKey, Partials>) | Supplied(id: nat)

  // The questions put to the MuSig2 and parsing libraries.
  datatype GraphCheck = GraphCheck(signer: OpKey, graph: Graph, nonces: Nonces, aggNonces: multiset<Nonces>,
    partials: Partials)
  datatype AggregateCheck = AggregateCheck(graph: Graph, aggNonces: multiset<Nonces>, partials: map<OpKey, Partials>)
  datatype RootCheck = RootCheck(signer: OpKey, nonce: Nonce, aggNonce: multiset<Nonce>, partial: Partial)
  datatype FulfillmentCheck = FulfillmentCheck(fulfiller: OpIdx, recipient: nat, tx: Tx)
  datatype AssertBatch = AssertBatch(txs: seq<Tx>)

  datatype Cfg = Cfg(
    table: OperatorTable,
    depositIdx: nat,
    depositTxid: Txid,
    depositRequestTxid: Txid,
    payoutOptimisticTimelock: nat,
    preAssertTimelock: nat,
    payoutTimelock: nat,
    multiThread: bool,
    buildGraph: GraphInput -> Graph,
    verifyGraph: GraphCheck -> bool,
    aggregates: AggregateCheck -> bool,
    verifyRoot: RootCheck -> bool,
    isFulfillment: FulfillmentCheck -> bool,
    parseClaim: Tx -> Option<nat>,
    parseAsserts: AssertBatch -> Option<nat>)

  datatype Graphs = Graphs(
    pegOutGraphs: map<Txid, (GraphInput, Summary)>,
    claimTxids: map<OpKey, Txid>,
    graphSigs: map<Txid, GraphSig>)

  datatype ResolutionPath = Optimistic | Contested

  /** Everything collected between the deposit request and the deposit. */
  datatype Request = Request(
    depositRequestTxid: Txid,
    abortDeadline: Height,
    inputs: map<OpKey, GraphInput>,
    summaries: map<Txid, Summary>,
    claimTxids: map<OpKey, Txid>,
    graphNonces: map<Txid, map<OpKey, Nonces>>,
    aggNonces: map<Txid, multiset<Nonces>>,
    graphPartials: map<Txid, map<OpKey, Partials>>,
    graphSigs: map<Txid, GraphSig>,
    rootNonces: map<OpKey, Nonce>,
    rootPartials: map<OpKey, Partial>)

  datatype ContractState =
    | Requested(r: Request)
    | Deposited(g: Graphs)
    | Assigned(g: Graphs, fulfiller: OpIdx, active: (GraphInput, Summary), withdrawalRequestTxid: nat,
        recipient: nat, deadline: Height, l1StartHeight: Height)
    | Fulfilled(g: Graphs, fulfiller: OpIdx, active: (GraphInput, Summary), withdrawalRequestTxid: nat,
        fulfillmentTxid: Txid, fulfillmentHeight: Height, l1StartHeight: Height)
    | Claimed(g: Graphs, fulfiller: OpIdx, active: (GraphInput, Summary), withdrawalRequestTxid: nat,
        fulfillmentTxid: Txid, claimHeight: Height, commitment: nat, l1StartHeight: Height)
    | Challenged(g: Graphs, fulfiller: OpIdx, active: (GraphInput, Summary), withdrawalRequestTxid: nat,
        fulfillmentTxid: Txid, claimHeight: Height, commitment: nat, l1StartHeight: Height)
    | PreAssertConfirmed(g: Graphs, fulfiller: OpIdx, active: (GraphInput, Summary), withdrawalRequestTxid: nat,
        fulfillmentTxid: Txid, claimHeight: Height, commitment: nat, l1StartHeight: Height,
        signedAsserts: map<Txid, Tx>)
    | AssertDataConfirmed(g: Graphs, fulfiller: OpIdx, active: (GraphInput, Summary), withdrawalRequestTxid: nat,
        fulfillmentTxid: Txid, commitment: nat, signedAsserts: map<Txid, Tx>)
    | Asserted(g: Graphs, fulfiller: OpIdx, active: (GraphInput, Summary), withdrawalRequestTxid: nat,
        fulfillmentTxid: Txid, commitment: nat, postAssertHeight: Height, proof: nat)
    | Disproved
    | Resolved(claimTxid: Txid, withdrawalRequestTxid: nat, fulfillmentTxid: Txid, payoutTxid: Txid,
        path: ResolutionPath)
    | Aborted

  /** The machine: `blockHeight` and `state` are persisted, `pog` is the graph cache keyed by stake txid. */
  datatype Machine = Machine(blockHeight: Height, state: ContractState, pog: map<Txid, Graph>)

  datatype Dispatch = Dispatch(assignee: OpIdx, recipient: Option<nat>, deadline: Height)
  datatype DepositEntry = DepositEntry(idx: nat, dispatched: Option<Dispatch>, withdrawalRequestTxid: Option<nat>)

  datatype Event =
    | DepositSetup(op: OpKey, payoutKey: nat, stakeHash: nat, stakeTxid: Txid, wotsKeys: nat)
    | GraphNonces(signer: OpKey, claim: Txid, nonces: Nonces)
    | GraphSigs(signer: OpKey, claim: Txid, partials: Partials)
    | AggregatedSigs(sigs: map<Txid, GraphSig>)
    | RootNonce(signer: OpKey, nonce: Nonce)
    | RootSig(signer: OpKey, partial: Partial)
    | Assignment(entry: DepositEntry, stakeTx: nat, l1Height: Height)
    | DepositConfirmation(tx: Tx)
    | PegOutGraphConfirmation(tx: Tx, height: Height)
    | Block(height: Height)
    | ClaimFailure
    | AssertionFailure

  datatype Duty =
    | Abort
    | PublishGraphNonces(claimTxid: Txid, graph: Graph)
    | PublishGraphSignatures(claimTxid: Txid, aggNonces: multiset<Nonces>, graph: Graph, existing: Option<Partials>)
    | PublishRootNonce(depositRequestTxid: Txid, existingNonce: Option<Nonce>)
    | PublishRootSignature(depositRequestTxid: Txid, aggNonce: multiset<Nonce>)
    | PublishDeposit(depositTxid: Txid, partials: seq<Partial>, aggNonce: multiset<Nonce>)
    | HandleFulfillment(stakeTx: nat, operatorIdx: OpIdx, recipient: nat, deadline: Height)
    | PublishClaim(fulfillmentTxid: Txid, stakeTxid: Txid)
    | PublishPayoutOptimistic(claimTxid: Txid, stakeTxid: Txid, sig: GraphSig)
    | PublishPreAssert(claimTxid: Txid, sig: GraphSig)
    | PublishAssertData(fulfillmentTxid: Txid, startHeight: Height, preAssertTxid: Txid, lockingScripts: seq<nat>)
    | PublishPostAssertData(assertDataTxids: seq<Txid>, sig: GraphSig)
    | PublishPayout(postAssertTxid: Txid, claimTxid: Txid, stakeTxid: Txid, sig: GraphSig)
    | VerifyClaim
    | VerifyAssertion
    | PublishChallenge
    | PublishDisprove

  /** `Rejected` is a `TransitionErr`; `Panic` is a failed `expect`. */
  datatype Outcome = Ok(duties: seq<Duty>) | Rejected | Panic
}
