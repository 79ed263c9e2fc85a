/** What every admissible run of the deposit contract keeps true about its maps. */
module ContractInvariant {
  import opened Collections
  import opened ContractTypes
  import opened ContractSpec
  import opened ContractCache

  /** The environment: the stake txid each operator announces (and whose it is) and the nonces each
      operator uses for a claim.  Both are the same however often they are sent. */
  datatype Env = Env(stake: map<OpKey, Txid>, owner: map<Txid, OpKey>, nonces: NonceId -> Nonces)

  datatype NonceId = NonceId(op: OpKey, claim: Txid)

  /** Distinct stake txids give distinct claims, and a graph has its full set of distinct assert-data txs. */
  ghost predicate GraphsWellFormed(cfg: Cfg) {
    && (forall x: GraphInput, y: GraphInput :: x.stakeTxid != y.stakeTxid ==>
          cfg.buildGraph(x).summary.claimTxid != cfg.buildGraph(y).summary.claimTxid)
    && (forall x: GraphInput :: |cfg.buildGraph(x).summary.assertDataTxids| == NUM_ASSERT_DATA_TX
                    && NoDup(cfg.buildGraph(x).summary.assertDataTxids))
  }

  /** Section "Partial Signature Aggregation" of BIP 327: partial signatures that all verify against
      the aggregate of all nonces aggregate to a valid signature. */
  ghost predicate VerifiedPartialsAggregate(cfg: Cfg) {
    forall graph: Graph, nonces: map<OpKey, Nonces>, partials: map<OpKey, Partials> ::
      AllVerified(cfg, graph, nonces, partials) && nonces.Keys == cfg.table.Keys() == partials.Keys
      ==> cfg.aggregates(AggregateCheck(graph, Sum(nonces), partials))
  }

  ghost predicate AllVerified(cfg: Cfg, graph: Graph, nonces: map<OpKey, Nonces>, partials: map<OpKey, Partials>) {
    forall op | op in partials ::
      op in nonces && cfg.verifyGraph(GraphCheck(op, graph, nonces[op], Sum(nonces), partials[op]))
  }

  ghost predicate CfgOk(cfg: Cfg, env: Env) {
    && cfg.table.Valid()
    && (forall op | op in cfg.table.Keys() :: op in env.stake && Owns(env.owner, op, env.stake[op]))
    && GraphsWellFormed(cfg)
    && VerifiedPartialsAggregate(cfg)
  }

  // ---------- the Requested state ----------

  function ClaimOf(cfg: Cfg, input: GraphInput): Txid {
    cfg.buildGraph(input).summary.claimTxid
  }

  /** Every operator's nonces for a claim. */
  function AllNonces(cfg: Cfg, env: Env, claim: Txid): map<OpKey, Nonces> {
    map op | op in cfg.table.Keys() :: env.nonces(NonceId(op, claim))
  }

  ghost predicate InputsOk(cfg: Cfg, env: Env, inputs: map<OpKey, GraphInput>) {
    && inputs.Keys <= cfg.table.Keys()
    && forall op | op in inputs :: op in env.stake && inputs[op].stakeTxid == env.stake[op]
  }

  /** Before the last setup arrives nothing but inputs and root data is known. */
  ghost predicate Fresh(r: Request) {
    && r.claimTxids == map[] && r.summaries == map[] && r.graphNonces == map[]
    && r.aggNonces == map[] && r.graphPartials == map[] && r.graphSigs == map[]
  }

  ghost predicate ClaimOpen(cfg: Cfg, r: Request, op: OpKey)
    requires op in r.inputs
  {
    var graph := cfg.buildGraph(r.inputs[op]);
    var claim := graph.summary.claimTxid;
    && op in r.claimTxids && r.claimTxids[op] == claim
    && claim in r.summaries && r.summaries[claim] == graph.summary
    && claim in r.graphNonces && claim in r.graphPartials
  }

  /** Afterwards claims, summaries and sessions are in step with the inputs. */
  ghost predicate Complete(cfg: Cfg, r: Request) {
    && r.inputs.Keys == cfg.table.Keys() == r.claimTxids.Keys
    && (forall op | op in r.inputs :: ClaimOpen(cfg, r, op))
    && (forall c | c in r.graphNonces :: HasOwner(cfg, r, c))
    && (forall c | c in r.graphPartials :: HasOwner(cfg, r, c))
  }

  ghost predicate HasOwner(cfg: Cfg, r: Request, claim: Txid) {
    exists op :: op in r.inputs && ClaimOf(cfg, r.inputs[op]) == claim
  }

  /** A nonce session holds contributions of operators only, each the operator's own. */
  ghost predicate NoncesOk(cfg: Cfg, env: Env, claim: Txid, session: map<OpKey, Nonces>) {
    && session.Keys <= cfg.table.Keys()
    && forall op | op in session :: session[op] == env.nonces(NonceId(op, claim))
  }

  /** Every stored partial signature verified against the aggregate of all operators' nonces. */
  ghost predicate PartialsOk(cfg: Cfg, env: Env, r: Request, claim: Txid, session: map<OpKey, Partials>) {
    && session.Keys <= cfg.table.Keys()
    && (session != map[] ==> claim in r.aggNonces)
    && forall o | o in r.inputs && ClaimOf(cfg, r.inputs[o]) == claim ::
         AllVerified(cfg, cfg.buildGraph(r.inputs[o]), AllNonces(cfg, env, claim), session)
  }

  ghost predicate SessionsOk(cfg: Cfg, env: Env, r: Request) {
    && (forall c | c in r.graphNonces :: NoncesOk(cfg, env, c, r.graphNonces[c]))
    && (forall c | c in r.aggNonces :: r.aggNonces[c] == Sum(AllNonces(cfg, env, c)))
    && (forall c | c in r.graphPartials :: PartialsOk(cfg, env, r, c, r.graphPartials[c]))
    && (forall op | op in r.inputs :: SigOk(cfg, env, r, op))
  }

  /** An aggregate signature adds up verified contributions of all operators. */
  ghost predicate Genuine(cfg: Cfg, env: Env, input: GraphInput, sig: GraphSig) {
    sig.Aggregate? ==>
      var nonces := AllNonces(cfg, env, ClaimOf(cfg, input));
      && sig.nonces == Sum(nonces)
      && sig.partials.Keys == cfg.table.Keys()
      && AllVerified(cfg, cfg.buildGraph(input), nonces, sig.partials)
  }

  ghost predicate SigOk(cfg: Cfg, env: Env, r: Request, op: OpKey)
    requires op in r.inputs
  {
    var claim := ClaimOf(cfg, r.inputs[op]);
    claim in r.graphSigs ==> Genuine(cfg, env, r.inputs[op], r.graphSigs[claim])
  }

  ghost predicate SigsComplete(cfg: Cfg, claimTxids: map<OpKey, Txid>, graphSigs: map<Txid, GraphSig>) {
    && claimTxids.Keys == cfg.table.Keys()
    && forall op | op in claimTxids :: claimTxids[op] in graphSigs
  }

  ghost predicate RootOk(cfg: Cfg, r: Request, duties: seq<Duty>) {
    && r.rootNonces.Keys <= cfg.table.Keys()
    && r.rootPartials.Keys <= r.rootNonces.Keys
    && (cfg.table.PovKey() in r.rootNonces ==> Asked(duties))
    && (Signed(duties) ==> Asked(duties))
    && (Asked(duties) ==> Complete(cfg, r) && SigsComplete(cfg, r.claimTxids, r.graphSigs))
  }

  ghost predicate Asked(duties: seq<Duty>) {
    exists d :: d in duties && d.PublishRootNonce?
  }

  ghost predicate Signed(duties: seq<Duty>) {
    exists d :: d in duties && d.PublishRootSignature?
  }

  ghost predicate RequestOk(cfg: Cfg, env: Env, r: Request, pog: map<Txid, Graph>, duties: seq<Duty>) {
    && InputsOk(cfg, env, r.inputs)
    && CacheOk(cfg, env.owner, r.inputs, pog)
    && (Fresh(r) || Complete(cfg, r))
    && (|r.inputs| == cfg.table.Size() ==> Complete(cfg, r))
    && SessionsOk(cfg, env, r)
    && RootOk(cfg, r, duties)
  }

  // ---------- the states after the deposit ----------

  /** Each operator's claim is paired with the input it was built from, its summary and its signature. */
  ghost predicate GraphsOk(cfg: Cfg, g: Graphs) {
    && SigsComplete(cfg, g.claimTxids, g.graphSigs)
    && forall op | op in g.claimTxids :: GraphPaired(cfg, g, g.claimTxids[op])
  }

  ghost predicate GraphPaired(cfg: Cfg, g: Graphs, claim: Txid) {
    && claim in g.pegOutGraphs
    && g.pegOutGraphs[claim].1 == cfg.buildGraph(g.pegOutGraphs[claim].0).summary
    && g.pegOutGraphs[claim].1.claimTxid == claim
  }

  predicate HasGraphs(s: ContractState) {
    !s.Requested? && !s.Disproved? && !s.Resolved? && !s.Aborted?
  }

  predicate HasActive(s: ContractState) {
    HasGraphs(s) && !s.Deposited?
  }

  /** The active graph is the assigned operator's own. */
  ghost predicate ActiveOk(cfg: Cfg, g: Graphs, fulfiller: OpIdx, active: (GraphInput, Summary)) {
    var key := cfg.table.KeyOfIdx(fulfiller);
    && key.Some? && key.value in g.claimTxids && g.claimTxids[key.value] in g.pegOutGraphs
    && active == g.pegOutGraphs[g.claimTxids[key.value]]
  }

  ghost predicate AssertsOk(s: ContractState) {
    && (s.PreAssertConfirmed? ==>
          s.signedAsserts.Keys <= Elems(s.active.1.assertDataTxids) && |s.signedAsserts| < NUM_ASSERT_DATA_TX)
    && (s.AssertDataConfirmed? ==> s.signedAsserts.Keys == Elems(s.active.1.assertDataTxids))
  }

  ghost predicate LifeOk(cfg: Cfg, s: ContractState) {
    && (HasGraphs(s) ==> GraphsOk(cfg, s.g))
    && (HasActive(s) ==> ActiveOk(cfg, s.g, s.fulfiller, s.active))
    && AssertsOk(s)
  }

  ghost predicate Inv(cfg: Cfg, env: Env, m: Machine, duties: seq<Duty>) {
    if m.state.Requested? then RequestOk(cfg, env, m.state.r, m.pog, duties) else LifeOk(cfg, m.state)
  }

  // ---------- runs ----------

  datatype Trace = Trace(m: Machine, duties: seq<Duty>)

  function Next(cfg: Cfg, t: Trace, ev: Event): Trace {
    var (m, outcome) := Step(cfg, t.m, ev);
    Trace(m, if outcome.Ok? then t.duties + outcome.duties else t.duties)
  }

  function Exec(cfg: Cfg, height: Height, deadline: Height, evs: seq<Event>): Trace {
    if evs == [] then Trace(InitialState(cfg, height, deadline), [])
    else Next(cfg, Exec(cfg, height, deadline, evs[..|evs| - 1]), evs[|evs| - 1])
  }

  /** What the environment guarantees about an event, given the duties emitted so far:
      operators repeat the same setup and nonces; this node publishes its root nonce only when asked
      to; the deposit confirms only after the graph signatures are complete; ready-made signatures come
      as a complete set; a pre-assert transaction has the outputs of its graph. */
  ghost predicate Admissible(cfg: Cfg, env: Env, t: Trace, ev: Event) {
    match ev
    case DepositSetup(op, _, _, stakeTxid, _) => op in cfg.table.Keys() && op in env.stake && stakeTxid == env.stake[op]
    case GraphNonces(signer, claim, nonces) =>
      signer in cfg.table.Keys() && nonces == env.nonces(NonceId(signer, claim))
    case GraphSigs(signer, _, _) => signer in cfg.table.Keys()
    case AggregatedSigs(sigs) =>
      && (forall c | c in sigs :: sigs[c].Supplied?)
      && (t.m.state.Requested? ==> SigsComplete(cfg, t.m.state.r.claimTxids, sigs))
    case RootNonce(signer, _) => signer in cfg.table.Keys() && (signer == cfg.table.PovKey() ==> Asked(t.duties))
    case DepositConfirmation(tx) =>
      t.m.state.Requested? && tx.txid == cfg.depositTxid ==>
        SigsComplete(cfg, t.m.state.r.claimTxids, t.m.state.r.graphSigs)
    case PegOutGraphConfirmation(tx, _) =>
      forall x: GraphInput :: cfg.buildGraph(x).summary.preAssertTxid == tx.txid ==> |tx.outputs| >= NUM_ASSERT_DATA_TX
    case _ => true
  }

  ghost predicate AdmissibleRun(cfg: Cfg, env: Env, height: Height, deadline: Height, evs: seq<Event>) {
    evs == [] ||
    (&& AdmissibleRun(cfg, env, height, deadline, evs[..|evs| - 1])
     && Admissible(cfg, env, Exec(cfg, height, deadline, evs[..|evs| - 1]), evs[|evs| - 1]))
  }

  /** What a single step of an admissible run may do. */
  ghost predicate GoodStep(cfg: Cfg, env: Env, t: Trace, ev: Event) {
    var (m, outcome) := Step(cfg, t.m, ev);
    && Inv(cfg, env, m, Next(cfg, t, ev).duties)
    && !outcome.Panic?
    && (outcome.Rejected? ==> m.blockHeight == t.m.blockHeight && m.state == t.m.state)
  }
}
