/** The transition function of the deposit contract, one function per event handler. */
module ContractSpec {
  import opened Collections
  import opened ContractTypes

  function InitialState(cfg: Cfg, height: Height, abortDeadline: Height): Machine {
    var r := Request(cfg.depositRequestTxid, abortDeadline, map[], map[], map[], map[], map[], map[], map[], map[],
      map[]);
    Machine(height, Requested(r), map[])
  }

  // ---------- the graph cache ----------

  /** The graph used for an input: the cached one, or a freshly built one. */
  function Cached(cfg: Cfg, pog: map<Txid, Graph>, input: GraphInput): Graph {
    if input.stakeTxid in pog then pog[input.stakeTxid] else cfg.buildGraph(input)
  }

  function Remember(cfg: Cfg, pog: map<Txid, Graph>, input: GraphInput): map<Txid, Graph> {
    pog[input.stakeTxid := Cached(cfg, pog, input)]
  }

  /** The cache after looking up the graphs of `ops` one after the other. */
  function CacheAfter(cfg: Cfg, pog: map<Txid, Graph>, inputs: map<OpKey, GraphInput>,
      ops: seq<OpKey>): map<Txid, Graph>
    requires forall op | op in ops :: op in inputs
  {
    if ops == [] then pog
    else
      var last := |ops| - 1;
      Remember(cfg, CacheAfter(cfg, pog, inputs, ops[..last]), inputs[ops[last]])
  }

  function CachedGraphs(cfg: Cfg, pog: map<Txid, Graph>, inputs: map<OpKey, GraphInput>): map<OpKey, Graph> {
    map op | op in inputs :: Cached(cfg, pog, inputs[op])
  }

  // ---------- deposit setup ----------

  function WithInput(inputs: map<OpKey, GraphInput>, ev: Event): map<OpKey, GraphInput>
    requires ev.DepositSetup?
  {
    inputs[ev.op :=
      if ev.op in inputs then inputs[ev.op].(stakeTxid := ev.stakeTxid)
      else GraphInput(ev.stakeTxid, ev.stakeHash, ev.wotsKeys, ev.payoutKey)]
  }

  function ClaimsOf(graphs: map<OpKey, Graph>): map<OpKey, Txid> {
    map op | op in graphs :: graphs[op].summary.claimTxid
  }

  /** Graphs by claim txid; later operators overwrite earlier ones. */
  function ByClaim(graphs: map<OpKey, Graph>, ops: seq<OpKey>): map<Txid, Graph>
    requires forall op | op in ops :: op in graphs
  {
    if ops == [] then map[]
    else
      var last := |ops| - 1;
      ByClaim(graphs, ops[..last])[graphs[ops[last]].summary.claimTxid := graphs[ops[last]]]
  }

  function Summaries(graphs: map<Txid, Graph>): map<Txid, Summary> {
    map c | c in graphs :: graphs[c].summary
  }

  function NoContributions<V>(claims: set<Txid>): map<Txid, map<OpKey, V>> {
    map c | c in claims :: map[]
  }

  /** Registers every operator's graph, opening empty nonce and signature sessions for its claim. */
  function Install(r: Request, graphs: map<OpKey, Graph>): Request {
    r.(summaries := r.summaries + Summaries(ByClaim(graphs, Sorted(graphs.Keys))),
       claimTxids := r.claimTxids + ClaimsOf(graphs),
       graphNonces := r.graphNonces + NoContributions(ClaimsOf(graphs).Values),
       graphPartials := r.graphPartials + NoContributions(ClaimsOf(graphs).Values))
  }

  /** The cache left behind by computing every operator's graph; worker threads do not use it. */
  function SetupCache(cfg: Cfg, pog: map<Txid, Graph>, inputs: map<OpKey, GraphInput>): map<Txid, Graph> {
    if cfg.multiThread then pog else CacheAfter(cfg, pog, inputs, Sorted(inputs.Keys))
  }

  function SetupGraphs(cfg: Cfg, pog: map<Txid, Graph>, inputs: map<OpKey, GraphInput>): map<OpKey, Graph> {
    CachedGraphs(cfg, if cfg.multiThread then map[] else SetupCache(cfg, pog, inputs), inputs)
  }

  function NonceDuties(graphs: map<OpKey, Graph>): seq<Duty> {
    var ops := Sorted(graphs.Keys);
    seq(|ops|, i requires 0 <= i < |ops| => PublishGraphNonces(graphs[ops[i]].summary.claimTxid, graphs[ops[i]]))
  }

  function Setup(cfg: Cfg, r: Request, pog: map<Txid, Graph>, ev: Event): (Request, map<Txid, Graph>, seq<Duty>)
    requires ev.DepositSetup?
  {
    var r' := r.(inputs := WithInput(r.inputs, ev));
    if |r'.inputs| != cfg.table.Size() then (r', pog, [])
    else
      var graphs := SetupGraphs(cfg, pog, r'.inputs);
      (Install(r', graphs), SetupCache(cfg, pog, r'.inputs), NonceDuties(graphs))
  }

  // ---------- graph nonces ----------

  /** Whether every known claim has a contribution from as many operators as there are. */
  predicate SessionsFull<V>(claimTxids: map<OpKey, Txid>, sessions: map<Txid, map<OpKey, V>>, n: nat) {
    forall op | op in claimTxids :: claimTxids[op] in sessions && |sessions[claimTxids[op]]| == n
  }

  function Contribute<V>(sessions: map<Txid, map<OpKey, V>>, claim: Txid, signer: OpKey, v: V)
    : map<Txid, map<OpKey, V>>
    requires claim in sessions
  {
    var session: map<OpKey, V> := sessions[claim][signer := v];
    sessions[claim := session]
  }

  function Owners(claimTxids: map<OpKey, Txid>, claim: Txid): set<OpKey> {
    set op | op in claimTxids && claimTxids[op] == claim
  }

  /** The owner recorded when the claim index is inverted: later keys overwrite earlier ones. */
  function LastOwner(claimTxids: map<OpKey, Txid>, claim: Txid): (r: OpKey)
    requires Owners(claimTxids, claim) != {}
    ensures r in Owners(claimTxids, claim)
  {
    var owners := Sorted(Owners(claimTxids, claim));
    assert owners[|owners| - 1] in owners;
    owners[|owners| - 1]
  }

  function SigningDuty(cfg: Cfg, r: Request, claim: Txid, graph: Graph): Duty
    requires claim in r.aggNonces
  {
    var pov := cfg.table.PovKey();
    var existing :=
      if claim in r.graphPartials && pov in r.graphPartials[claim] then Some(r.graphPartials[claim][pov]) else None;
    PublishGraphSignatures(claim, r.aggNonces[claim], graph, existing)
  }

  /** One signing duty per claim in operator order, threading the cache; `None` when a lookup fails. */
  function SigningDuties(cfg: Cfg, r: Request, pog: map<Txid, Graph>, ops: seq<OpKey>)
    : (map<Txid, Graph>, Option<seq<Duty>>)
    requires forall op | op in ops :: op in r.claimTxids
  {
    if ops == [] then (pog, Some([]))
    else
      var last := |ops| - 1;
      var (cache, duties) := SigningDuties(cfg, r, pog, ops[..last]);
      if duties.None? then (cache, None)
      else
        var claim := r.claimTxids[ops[last]];
        assert ops[last] in Owners(r.claimTxids, claim);
        var owner := LastOwner(r.claimTxids, claim);
        if owner !in r.inputs then (cache, None)
        else
          var cache' := Remember(cfg, cache, r.inputs[owner]);
          if claim !in r.aggNonces then (cache', None)
          else (cache', Some(duties.value + [SigningDuty(cfg, r, claim, Cached(cfg, cache, r.inputs[owner]))]))
  }

  function AggregateNonces(graphNonces: map<Txid, map<OpKey, Nonces>>): map<Txid, multiset<Nonces>> {
    map claim | claim in graphNonces :: Sum(graphNonces[claim])
  }

  function WithNonces(r: Request, ev: Event): Request
    requires ev.GraphNonces? && ev.claim in r.graphNonces
  {
    r.(graphNonces := Contribute(r.graphNonces, ev.claim, ev.signer, ev.nonces))
  }

  function WithAggNonces(r: Request): Request {
    r.(aggNonces := AggregateNonces(r.graphNonces))
  }

  function AddNonces(cfg: Cfg, r: Request, pog: map<Txid, Graph>, ev: Event): (Request, map<Txid, Graph>, Outcome)
    requires ev.GraphNonces?
  {
    if !Unpacks(ev.nonces) || ev.claim !in r.graphNonces then (r, pog, Rejected)
    else if ev.signer in r.graphNonces[ev.claim] then (r, pog, Ok([]))
    else
      var r1 := WithNonces(r, ev);
      if !SessionsFull(r1.claimTxids, r1.graphNonces, cfg.table.Size()) then (r1, pog, Ok([]))
      else
        var r2 := WithAggNonces(r1);
        var (cache, duties) := SigningDuties(cfg, r2, pog, Sorted(r2.claimTxids.Keys));
        (r2, cache, if duties.Some? then Ok(duties.value) else Rejected)
  }

  // ---------- graph signatures ----------

  /** The verdict on a peer's partial signatures: `None` accepts them, `Some(o)` ends with outcome `o`. */
  function VerifyPartials(cfg: Cfg, r: Request, ev: Event, graph: Graph): Option<Outcome>
    requires ev.GraphSigs?
  {
    if ev.signer !in cfg.table.Keys() || ev.claim !in r.graphNonces then Some(Panic)
    else if |r.graphNonces[ev.claim]| != cfg.table.Size() then Some(Ok([]))
    else if ev.signer !in r.graphNonces[ev.claim] then Some(Panic)
    else if ev.claim !in r.aggNonces then Some(Rejected)
    else if !cfg.verifyGraph(GraphCheck(ev.signer, graph, r.graphNonces[ev.claim][ev.signer], r.aggNonces[ev.claim],
      ev.partials))
      then Some(Rejected)
    else None
  }

  /** Aggregation meets none of its `expect`s. */
  predicate CanAggregate(cfg: Cfg, r: Request, graphs: map<Txid, Graph>) {
    forall claim | claim in graphs ::
      && claim in r.aggNonces && claim in r.graphPartials
      && r.graphPartials[claim].Keys <= cfg.table.Keys()
      && cfg.aggregates(AggregateCheck(graphs[claim], r.aggNonces[claim], r.graphPartials[claim]))
  }

  function RootNonceDuty(cfg: Cfg, rootNonces: map<OpKey, Nonce>): Duty {
    var pov := cfg.table.PovKey();
    PublishRootNonce(cfg.depositRequestTxid, if pov in rootNonces then Some(rootNonces[pov]) else None)
  }

  function AggregateSigs(cfg: Cfg, r: Request, graphs: map<Txid, Graph>): map<Txid, GraphSig>
    requires CanAggregate(cfg, r, graphs)
  {
    map claim | claim in graphs :: Aggregate(r.aggNonces[claim], r.graphPartials[claim])
  }

  function AggregateAll(cfg: Cfg, r: Request, pog: map<Txid, Graph>): (Request, Outcome) {
    var graphs := ByClaim(CachedGraphs(cfg, pog, r.inputs), Sorted(r.inputs.Keys));
    if !CanAggregate(cfg, r, graphs) then (r, Panic)
    else (r.(graphSigs := AggregateSigs(cfg, r, graphs)), Ok([RootNonceDuty(cfg, r.rootNonces)]))
  }

  function WithPartials(r: Request, ev: Event): Request
    requires ev.GraphSigs? && ev.claim in r.graphPartials
  {
    r.(graphPartials := Contribute(r.graphPartials, ev.claim, ev.signer, ev.partials))
  }

  function AddPartials(cfg: Cfg, r: Request, pog: map<Txid, Graph>, ev: Event): (Request, Outcome)
    requires ev.GraphSigs?
  {
    var owners := Owners(r.claimTxids, ev.claim);
    if !Unpacks(ev.partials) || ev.claim !in r.graphPartials then (r, Rejected)
    else if ev.signer in r.graphPartials[ev.claim] then (r, Ok([]))
    else if owners == {} || MinOf(owners) !in r.inputs then (r, Rejected)
    else
      match VerifyPartials(cfg, r, ev, Cached(cfg, pog, r.inputs[MinOf(owners)]))
      case Some(outcome) => (r, outcome)
      case None =>
        var r' := WithPartials(r, ev);
        if !SessionsFull(r'.claimTxids, r'.graphPartials, cfg.table.Size()) then (r', Ok([]))
        else AggregateAll(cfg, r', pog)
  }

  // ---------- the deposit transaction itself ----------

  /** The contributions of the operators in table order, skipping those without one. */
  function InTableOrder(ops: seq<Operator>, contributions: map<OpKey, nat>): seq<nat> {
    if ops == [] then []
    else
      var rest := InTableOrder(ops[1..], contributions);
      if ops[0].p2pKey in contributions then [contributions[ops[0].p2pKey]] + rest else rest
  }

  function AddRootNonce(cfg: Cfg, r: Request, ev: Event): (Request, seq<Duty>)
    requires ev.RootNonce?
  {
    if ev.signer in r.rootNonces then (r, [])
    else
      var r' := r.(rootNonces := r.rootNonces[ev.signer := ev.nonce]);
      (r',
       if |r'.rootNonces| == cfg.table.Size() then
         [PublishRootSignature(cfg.depositRequestTxid, multiset(InTableOrder(cfg.table.operators, r'.rootNonces)))]
       else [])
  }

  function AddRootPartial(cfg: Cfg, r: Request, ev: Event): (Request, Outcome)
    requires ev.RootSig?
  {
    if ev.signer in r.rootPartials then (r, Ok([]))
    else if ev.signer !in cfg.table.Keys() || ev.signer !in r.rootNonces then (r, Rejected)
    else if !cfg.verifyRoot(RootCheck(ev.signer, r.rootNonces[ev.signer], Sum(r.rootNonces), ev.partial)) then
      (r, Ok([]))
    else
      var r' := r.(rootPartials := r.rootPartials[ev.signer := ev.partial]);
      (r',
       Ok(if |r'.rootPartials| == cfg.table.Size() then
            [PublishDeposit(cfg.depositTxid, InTableOrder(cfg.table.operators, r'.rootPartials), Sum(r.rootNonces))]
          else []))
  }

  /** Every claim has its own input and summary, so the confirmation handler meets no `expect`. */
  predicate CanConfirm(r: Request) {
    && r.claimTxids.Keys <= r.inputs.Keys
    && (forall op | op in r.claimTxids :: r.claimTxids[op] in r.summaries)
    && (forall a, b | a in r.claimTxids && b in r.claimTxids && a != b :: r.claimTxids[a] != r.claimTxids[b])
  }

  function PairGraphs(r: Request): map<Txid, (GraphInput, Summary)>
    requires CanConfirm(r)
  {
    map op | op in r.claimTxids :: r.claimTxids[op] := (r.inputs[op], r.summaries[r.claimTxids[op]])
  }

  function ProcessDepositConfirmation(cfg: Cfg, m: Machine, tx: Tx): (Machine, Outcome) {
    if tx.txid != cfg.depositTxid || !m.state.Requested? then (m, Rejected)
    else
      var r := m.state.r;
      if !CanConfirm(r) then (m, Panic)
      else (Machine(m.blockHeight, Deposited(Graphs(PairGraphs(r), r.claimTxids, r.graphSigs)), map[]), Ok([]))
  }

  // ---------- blocks ----------

  function BlockDuty(cfg: Cfg, s: ContractState, height: Height): Outcome {
    match s
    case Claimed(g, fulfiller, active, _, _, claimHeight, _, _) =>
      if height >= claimHeight + cfg.payoutOptimisticTimelock && fulfiller == cfg.table.pov then
        var claim := active.1.claimTxid;
        if claim in g.graphSigs then Ok([PublishPayoutOptimistic(claim, active.1.stakeTxid, g.graphSigs[claim])])
        else Rejected
      else Ok([])
    case Challenged(g, fulfiller, active, _, _, claimHeight, _, _) =>
      if height >= claimHeight + cfg.preAssertTimelock && fulfiller == cfg.table.pov then
        var claim := active.1.claimTxid;
        if claim in g.graphSigs then Ok([PublishPreAssert(claim, g.graphSigs[claim])])
        else Rejected
      else Ok([])
    case Asserted(g, fulfiller, active, _, _, _, postAssertHeight, _) =>
      if height >= postAssertHeight + cfg.payoutTimelock && fulfiller == cfg.table.pov then
        var claim := active.1.claimTxid;
        if claim in g.graphSigs
        then Ok([PublishPayout(active.1.postAssertTxid, claim, active.0.stakeTxid, g.graphSigs[claim])])
        else Rejected
      else Ok([])
    case _ => Ok([])
  }

  function ProcessBlock(cfg: Cfg, m: Machine, height: Height): (Machine, Outcome) {
    if height != m.blockHeight + 1 then (m, Rejected)
    else if m.state.Requested? && height >= m.state.r.abortDeadline then
      (m.(blockHeight := height, state := Aborted), Ok([Abort]))
    else (m.(blockHeight := height), BlockDuty(cfg, m.state, height))
  }

  // ---------- assignment and the withdrawal lifecycle ----------

  function ProcessAssignment(cfg: Cfg, s: ContractState, ev: Event): (ContractState, Outcome)
    requires ev.Assignment?
  {
    var entry := ev.entry;
    if entry.idx != cfg.depositIdx || entry.dispatched.None? then (s, Rejected)
    else
      var d := entry.dispatched.value;
      var key := cfg.table.KeyOfIdx(d.assignee);
      if key.None? || d.recipient.None? || entry.withdrawalRequestTxid.None? then (s, Rejected)
      else if s.Deposited? || s.Assigned? then
        if key.value !in s.g.claimTxids || s.g.claimTxids[key.value] !in s.g.pegOutGraphs then (s, Rejected)
        else
          var active := s.g.pegOutGraphs[s.g.claimTxids[key.value]];
          (Assigned(s.g, d.assignee, active, entry.withdrawalRequestTxid.value, d.recipient.value, d.deadline,
            ev.l1Height),
           Ok([HandleFulfillment(ev.stakeTx, d.assignee, d.recipient.value, d.deadline)]))
      else if s.Aborted? then
        (s, Ok([HandleFulfillment(ev.stakeTx, STUB_OPERATOR_IDX, d.recipient.value, d.deadline)]))
      else (s, Ok([]))
  }

  function ConfirmFulfillment(cfg: Cfg, s: ContractState, tx: Tx, height: Height): (ContractState, Outcome)
    requires s.Assigned?
  {
    if !cfg.isFulfillment(FulfillmentCheck(s.fulfiller, s.recipient, tx)) then (s, Ok([]))
    else
      (Fulfilled(s.g, s.fulfiller, s.active, s.withdrawalRequestTxid, tx.txid, height, s.l1StartHeight),
       Ok(if s.fulfiller == cfg.table.pov then [PublishClaim(tx.txid, s.active.1.stakeTxid)] else []))
  }

  function ConfirmClaim(cfg: Cfg, s: ContractState, tx: Tx, height: Height): (ContractState, Outcome)
    requires s.Fulfilled?
  {
    if tx.txid != s.active.1.claimTxid || cfg.parseClaim(tx).None? then (s, Rejected)
    else
      (Claimed(s.g, s.fulfiller, s.active, s.withdrawalRequestTxid, s.fulfillmentTxid, height,
               cfg.parseClaim(tx).value, s.l1StartHeight),
       Ok(if s.fulfiller != cfg.table.pov then [VerifyClaim] else []))
  }

  function ConfirmPreAssert(cfg: Cfg, s: ContractState, tx: Tx): (ContractState, Outcome)
    requires s.Claimed? || s.Challenged?
  {
    if tx.txid != s.active.1.preAssertTxid then (s, Rejected)
    else if s.fulfiller == cfg.table.pov && |tx.outputs| < NUM_ASSERT_DATA_TX then (s, Panic)
    else
      (PreAssertConfirmed(s.g, s.fulfiller, s.active, s.withdrawalRequestTxid, s.fulfillmentTxid, s.claimHeight,
                          s.commitment, s.l1StartHeight, map[]),
       Ok(if s.fulfiller == cfg.table.pov
          then [PublishAssertData(s.fulfillmentTxid, s.l1StartHeight, tx.txid, tx.outputs[..NUM_ASSERT_DATA_TX])]
          else []))
  }

  /** In the Claimed state a challenge is tried first, then the optimistic payout, then the pre-assert. */
  function ConfirmAfterClaim(cfg: Cfg, s: ContractState, tx: Tx): (ContractState, Outcome)
    requires s.Claimed?
  {
    if IsChallenge(s.active.1.claimTxid, tx) then
      (Challenged(s.g, s.fulfiller, s.active, s.withdrawalRequestTxid, s.fulfillmentTxid, s.claimHeight,
                  s.commitment, s.l1StartHeight), Ok([]))
    else if tx.txid == s.active.1.payoutOptimisticTxid then
      (Resolved(s.active.1.claimTxid, s.withdrawalRequestTxid, s.fulfillmentTxid, tx.txid, Optimistic), Ok([]))
    else ConfirmPreAssert(cfg, s, tx)
  }

  function ConfirmAssertData(cfg: Cfg, s: ContractState, tx: Tx): (ContractState, Outcome)
    requires s.PreAssertConfirmed?
  {
    if tx.txid !in s.active.1.assertDataTxids then (s, Rejected)
    else
      var signed := s.signedAsserts[tx.txid := tx];
      var s' := PreAssertConfirmed(s.g, s.fulfiller, s.active, s.withdrawalRequestTxid, s.fulfillmentTxid,
                                   s.claimHeight, s.commitment, s.l1StartHeight, signed);
      var claim := s.active.1.claimTxid;
      if |signed| < NUM_ASSERT_DATA_TX then (s', Ok([]))
      else if s.fulfiller == cfg.table.pov && claim !in s.g.graphSigs then (s', Rejected)
      else
        (AssertDataConfirmed(s.g, s.fulfiller, s.active, s.withdrawalRequestTxid, s.fulfillmentTxid, s.commitment,
          signed),
         Ok(if s.fulfiller == cfg.table.pov
            then [PublishPostAssertData(s.active.1.assertDataTxids, s.g.graphSigs[claim])]
            else []))
  }

  predicate AllSigned(txids: seq<Txid>, signed: map<Txid, Tx>) {
    forall t | t in txids :: t in signed
  }

  function ConfirmPostAssert(cfg: Cfg, s: ContractState, tx: Tx, height: Height): (ContractState, Outcome)
    requires s.AssertDataConfirmed?
  {
    if |s.signedAsserts| != NUM_ASSERT_DATA_TX || tx.txid != s.active.1.postAssertTxid then (s, Rejected)
    else if !AllSigned(s.active.1.assertDataTxids, s.signedAsserts) then (s, Rejected)
    else if |s.active.1.assertDataTxids| != NUM_ASSERT_DATA_TX then (s, Panic)
    else
      var proof := cfg.parseAsserts(AssertBatch(Images(s.active.1.assertDataTxids, s.signedAsserts)));
      if proof.None? then (s, Rejected)
      else
        (Asserted(s.g, s.fulfiller, s.active, s.withdrawalRequestTxid, s.fulfillmentTxid, s.commitment, height,
          proof.value),
         Ok(if s.fulfiller == cfg.table.pov then [VerifyAssertion] else []))
  }

  function ConfirmAfterAssert(s: ContractState, tx: Tx): (ContractState, Outcome)
    requires s.Asserted?
  {
    if IsDisprove(s.active.1.postAssertTxid, tx) then (Disproved, Ok([]))
    else if tx.txid == s.active.1.payoutTxid then
      (Resolved(s.active.1.claimTxid, s.withdrawalRequestTxid, s.fulfillmentTxid, tx.txid, Contested), Ok([]))
    else (s, Rejected)
  }

  function Confirm(cfg: Cfg, s: ContractState, tx: Tx, height: Height): (ContractState, Outcome) {
    if s.Assigned? then ConfirmFulfillment(cfg, s, tx, height)
    else if s.Fulfilled? then ConfirmClaim(cfg, s, tx, height)
    else if s.Claimed? then ConfirmAfterClaim(cfg, s, tx)
    else if s.Challenged? then ConfirmPreAssert(cfg, s, tx)
    else if s.PreAssertConfirmed? then ConfirmAssertData(cfg, s, tx)
    else if s.AssertDataConfirmed? then ConfirmPostAssert(cfg, s, tx, height)
    else if s.Asserted? then ConfirmAfterAssert(s, tx)
    else (s, Rejected)
  }

  // ---------- the machine ----------

  /** Messages that build up the deposit; outside the Requested state only a few are tolerated. */
  function ProcessMessage(cfg: Cfg, m: Machine, ev: Event): (Machine, Outcome)
    requires ev.DepositSetup? || ev.GraphNonces? || ev.GraphSigs? || ev.AggregatedSigs? || ev.RootNonce? || ev.RootSig?
  {
    if !m.state.Requested? then
      (m, if (ev.DepositSetup? && m.state.Aborted?) || ((ev.RootNonce? || ev.RootSig?) && m.state.Deposited?)
          then Ok([]) else Rejected)
    else
      match ev
      case DepositSetup(_, _, _, _, _) =>
        var (r, pog, duties) := Setup(cfg, m.state.r, m.pog, ev);
        (Machine(m.blockHeight, Requested(r), pog), Ok(duties))
      case GraphNonces(_, _, _) =>
        var (r, pog, outcome) := AddNonces(cfg, m.state.r, m.pog, ev);
        (Machine(m.blockHeight, Requested(r), pog), outcome)
      case GraphSigs(_, _, _) =>
        var (r, outcome) := AddPartials(cfg, m.state.r, m.pog, ev);
        (m.(state := Requested(r)), outcome)
      case AggregatedSigs(sigs) =>
        (m.(state := Requested(m.state.r.(graphSigs := sigs))), Ok([RootNonceDuty(cfg, m.state.r.rootNonces)]))
      case RootNonce(_, _) =>
        var (r, duties) := AddRootNonce(cfg, m.state.r, ev);
        (m.(state := Requested(r)), Ok(duties))
      case RootSig(_, _) =>
        var (r, outcome) := AddRootPartial(cfg, m.state.r, ev);
        (m.(state := Requested(r)), outcome)
  }

  predicate IsMessage(ev: Event) {
    ev.DepositSetup? || ev.GraphNonces? || ev.GraphSigs? || ev.AggregatedSigs? || ev.RootNonce? || ev.RootSig?
  }

  function Step(cfg: Cfg, m: Machine, ev: Event): (Machine, Outcome) {
    if IsMessage(ev) then ProcessMessage(cfg, m, ev)
    else
      match ev
      case Assignment(_, _, _) =>
        var (s, outcome) := ProcessAssignment(cfg, m.state, ev);
        (m.(state := s), outcome)
      case DepositConfirmation(tx) => ProcessDepositConfirmation(cfg, m, tx)
      case PegOutGraphConfirmation(tx, height) =>
        var (s, outcome) := Confirm(cfg, m.state, tx, height);
        (m.(state := s), outcome)
      case Block(height) => ProcessBlock(cfg, m, height)
      case ClaimFailure => (m, if m.state.Claimed? then Ok([PublishChallenge]) else Rejected)
      case AssertionFailure => (m, if m.state.Asserted? then Ok([PublishDisprove]) else Rejected)
  }
}
