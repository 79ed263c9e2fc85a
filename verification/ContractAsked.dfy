/** Which duties the signing phase gives, and what it stores: exactly what the messages call for. */
module ContractAsked {
  import opened Collections
  import opened ContractTypes
  import opened ContractSpec
  import opened ContractCache
  import opened ContractInvariant
  import opened ContractSafety
  import opened ContractSigning
  import opened ContractRuns
  import opened ContractBlocks
  import opened ContractDuties

  /** Every operator has contributed to every claim. */
  ghost predicate AllIn<V>(cfg: Cfg, claimTxids: map<OpKey, Txid>, sessions: map<Txid, map<OpKey, V>>) {
    forall op | op in claimTxids :: claimTxids[op] in sessions && sessions[claimTxids[op]].Keys == cfg.table.Keys()
  }

  lemma FullMeansAllIn<V>(cfg: Cfg, claimTxids: map<OpKey, Txid>, sessions: map<Txid, map<OpKey, V>>)
    requires cfg.table.Valid()
    requires forall op | op in claimTxids ::
      claimTxids[op] in sessions && sessions[claimTxids[op]].Keys <= cfg.table.Keys()
    ensures SessionsFull(claimTxids, sessions, cfg.table.Size()) <==> AllIn(cfg, claimTxids, sessions)
  {
    KeyFacts(cfg.table);
    if SessionsFull(claimTxids, sessions, cfg.table.Size()) {
      forall op | op in claimTxids ensures sessions[claimTxids[op]].Keys == cfg.table.Keys() {
        assert |sessions[claimTxids[op]]| == |sessions[claimTxids[op]].Keys|;
        SubsetOfSameSize(sessions[claimTxids[op]].Keys, cfg.table.Keys());
      }
    }
    if AllIn(cfg, claimTxids, sessions) {
      forall op | op in claimTxids ensures |sessions[claimTxids[op]]| == cfg.table.Size() {
        assert |sessions[claimTxids[op]]| == |sessions[claimTxids[op]].Keys|;
      }
    }
  }

  lemma SessionsWithinTable(cfg: Cfg, env: Env, r: Request, pog: map<Txid, Graph>, duties: seq<Duty>)
    requires RequestOk(cfg, env, r, pog, duties) && Complete(cfg, r)
    ensures forall op | op in r.claimTxids ::
      && r.claimTxids[op] in r.graphNonces && r.graphNonces[r.claimTxids[op]].Keys <= cfg.table.Keys()
      && r.claimTxids[op] in r.graphPartials && r.graphPartials[r.claimTxids[op]].Keys <= cfg.table.Keys()
  {
    hide InputsOk, CacheOk, RootOk, Fresh, AllVerified, AllNonces, Sum, SigOk;
    forall op | op in r.claimTxids
      ensures r.claimTxids[op] in r.graphNonces && r.graphNonces[r.claimTxids[op]].Keys <= cfg.table.Keys()
      ensures r.claimTxids[op] in r.graphPartials && r.graphPartials[r.claimTxids[op]].Keys <= cfg.table.Keys()
    {
      assert ClaimOpen(cfg, r, op);
      assert NoncesOk(cfg, env, r.claimTxids[op], r.graphNonces[r.claimTxids[op]]);
      assert PartialsOk(cfg, env, r, r.claimTxids[op], r.graphPartials[r.claimTxids[op]]);
    }
  }

  function Lookup<V>(m: map<OpKey, V>, op: OpKey): Option<V> {
    if op in m then Some(m[op]) else None
  }

  // ---------- graph nonces ----------

  /** First nonces of a signer for a known claim, of a packed graph's length. */
  predicate FirstNonces(r: Request, ev: Event)
    requires ev.GraphNonces?
  {
    Unpacks(ev.nonces) && ev.claim in r.graphNonces && ev.signer !in r.graphNonces[ev.claim]
  }

  /** The request to sign an operator's graph: its claim, everybody's nonces for it, and this node's signatures if it
      has them. */
  ghost predicate SignatureAsked(cfg: Cfg, env: Env, r: Request, op: OpKey, d: Duty) {
    && op in r.inputs && d.PublishGraphSignatures?
    && d.graph == cfg.buildGraph(r.inputs[op]) && d.claimTxid == d.graph.summary.claimTxid
    && d.aggNonces == Sum(AllNonces(cfg, env, d.claimTxid))
    && d.claimTxid in r.graphPartials
    && d.existing == Lookup(r.graphPartials[d.claimTxid], cfg.table.PovKey())
  }

  /** One request for each operator, in key order. */
  ghost predicate AllSignaturesAsked(cfg: Cfg, env: Env, r: Request, duties: seq<Duty>) {
    var ops := Sorted(cfg.table.Keys());
    |duties| == |ops| && forall i | 0 <= i < |ops| :: SignatureAsked(cfg, env, r, ops[i], duties[i])
  }

  ghost predicate NoncesAnswered(cfg: Cfg, env: Env, r: Request, r': Request, ev: Event, outcome: Outcome)
    requires ev.GraphNonces?
  {
    && (outcome.Rejected? <==> !Unpacks(ev.nonces) || ev.claim !in r.graphNonces)
    && r'.graphNonces == (if FirstNonces(r, ev) then Contribute(r.graphNonces, ev.claim, ev.signer, ev.nonces)
                          else r.graphNonces)
    && (if FirstNonces(r, ev) && AllIn(cfg, r'.claimTxids, r'.graphNonces)
        then AllSignaturesAsked(cfg, env, r, DutiesOf(outcome)) else DutiesOf(outcome) == [])
  }

  /** The signing duty of an operator's claim, in a state whose aggregates are the sums of everybody's nonces. */
  lemma DutyAsksSignature(cfg: Cfg, env: Env, r: Request, pog: map<Txid, Graph>, duties: seq<Duty>, op: OpKey)
    requires RequestOk(cfg, env, r, pog, duties) && Complete(cfg, r) && op in r.inputs
    requires op in r.claimTxids && r.claimTxids[op] in r.aggNonces
    ensures SignatureAsked(cfg, env, r, op, SigningDuty(cfg, r, r.claimTxids[op], cfg.buildGraph(r.inputs[op])))
  {
    hide InputsOk, CacheOk, RootOk, Fresh, AllVerified, AllNonces, Sum, SigOk, NoncesOk, PartialsOk;
    assert ClaimOpen(cfg, r, op);
  }

  lemma NoncesAreAnswered(cfg: Cfg, env: Env, r: Request, pog: map<Txid, Graph>, duties: seq<Duty>, ev: Event)
    requires CfgOk(cfg, env) && RequestOk(cfg, env, r, pog, duties)
    requires ev.GraphNonces? && ev.signer in cfg.table.Keys() && ev.nonces == env.nonces(NonceId(ev.signer, ev.claim))
    ensures var (r', _, outcome) := AddNonces(cfg, r, pog, ev); NoncesAnswered(cfg, env, r, r', ev, outcome)
  {
    hide RequestOk, CfgOk, Complete, SigningDuties, SessionsFull, Sorted, WithNonces, WithAggNonces, Unpacks, AllIn;
    hide AllSignaturesAsked;
    if FirstNonces(r, ev) {
      var r1 := WithNonces(r, ev);
      WithNoncesFrame(r, ev);
      NoncesContributed(cfg, env, r, pog, duties, ev);
      SessionsWithinTable(cfg, env, r1, pog, duties);
      TableIsValid(cfg, env);
      FullMeansAllIn(cfg, r1.claimTxids, r1.graphNonces);
      AggFrame(r1);
      if SessionsFull(r1.claimTxids, r1.graphNonces, cfg.table.Size()) {
        NoncesCompleted(cfg, env, r1, pog, duties);
        SignaturesAreAsked(cfg, env, r, r1, pog, duties);
      }
    }
  }

  lemma TableIsValid(cfg: Cfg, env: Env)
    requires CfgOk(cfg, env)
    ensures cfg.table.Valid()
  {
  }

  lemma WithNoncesFrame(r: Request, ev: Event)
    requires ev.GraphNonces? && ev.claim in r.graphNonces
    ensures var r1 := WithNonces(r, ev);
      && r1.graphNonces == Contribute(r.graphNonces, ev.claim, ev.signer, ev.nonces)
      && r1.inputs == r.inputs && r1.claimTxids == r.claimTxids && r1.graphPartials == r.graphPartials
  {
  }

  lemma AggFrame(r: Request)
    ensures var r2 := WithAggNonces(r);
      && r2.graphNonces == r.graphNonces && r2.inputs == r.inputs && r2.claimTxids == r.claimTxids
      && r2.graphPartials == r.graphPartials
  {
  }

  lemma SignaturesAreAsked(cfg: Cfg, env: Env, r: Request, r1: Request, pog: map<Txid, Graph>, duties: seq<Duty>)
    requires CfgOk(cfg, env) && Complete(cfg, r1)
    requires RequestOk(cfg, env, WithAggNonces(r1), pog, duties) && Complete(cfg, WithAggNonces(r1))
    requires r1.inputs == r.inputs && r1.graphPartials == r.graphPartials
    ensures var r2 := WithAggNonces(r1); var more := SigningDuties(cfg, r2, pog, Sorted(r2.claimTxids.Keys)).1;
      more.Some? && AllSignaturesAsked(cfg, env, r, more.value)
  {
    hide RequestOk, CfgOk, Complete, SigningDuties, Sorted, WithAggNonces, SigningDuty, SignatureAsked;
    var r2 := WithAggNonces(r1);
    AggFrame(r1);
    InputsAreClaims(cfg, r2);
    CompleteKeys(cfg, r2);
    var ops := Sorted(r2.claimTxids.Keys);
    forall op | op in ops ensures op in r2.inputs && op in r2.claimTxids && r2.claimTxids[op] in r2.aggNonces {
      ClaimsAggregated(cfg, r1, op);
    }
    PartsOf(cfg, env, r2, pog, duties);
    SigningSucceeds(cfg, env, r2, pog, ops);
    var more := SigningDuties(cfg, r2, pog, ops).1.value;
    forall i | 0 <= i < |ops| ensures SignatureAsked(cfg, env, r, ops[i], more[i]) {
      assert ops[i] in ops;
      DutyAsksSignature(cfg, env, r2, pog, duties, ops[i]);
      AskedFrame(cfg, env, r, r2, ops[i], more[i]);
    }
  }

  lemma CompleteKeys(cfg: Cfg, r: Request)
    requires Complete(cfg, r)
    ensures r.claimTxids.Keys == cfg.table.Keys() == r.inputs.Keys
  {
  }

  lemma PartsOf(cfg: Cfg, env: Env, r: Request, pog: map<Txid, Graph>, duties: seq<Duty>)
    requires RequestOk(cfg, env, r, pog, duties)
    ensures InputsOk(cfg, env, r.inputs) && CacheOk(cfg, env.owner, r.inputs, pog)
  {
    hide InputsOk, CacheOk, RootOk, Fresh, Complete, SessionsOk;
  }

  lemma AskedFrame(cfg: Cfg, env: Env, r: Request, r': Request, op: OpKey, d: Duty)
    requires SignatureAsked(cfg, env, r', op, d) && r'.inputs == r.inputs && r'.graphPartials == r.graphPartials
    ensures SignatureAsked(cfg, env, r, op, d)
  {
    hide Sum, AllNonces;
  }

  // ---------- graph signatures ----------

  /** First signatures of a signer for an operator's claim, which verify against everybody's nonces. */
  ghost predicate FirstSignatures(cfg: Cfg, env: Env, r: Request, ev: Event, op: OpKey)
    requires ev.GraphSigs?
  {
    && Unpacks(ev.partials) && op in r.inputs && ClaimOf(cfg, r.inputs[op]) == ev.claim
    && ev.claim in r.graphPartials && ev.signer !in r.graphPartials[ev.claim]
    && ev.claim in r.graphNonces && r.graphNonces[ev.claim].Keys == cfg.table.Keys() && ev.claim in r.aggNonces
    && var nonces := AllNonces(cfg, env, ev.claim);
       ev.signer in nonces
       && cfg.verifyGraph(
            GraphCheck(ev.signer, cfg.buildGraph(r.inputs[op]), nonces[ev.signer], Sum(nonces), ev.partials))
  }

  ghost predicate SignaturesTaken(cfg: Cfg, env: Env, r: Request, ev: Event)
    requires ev.GraphSigs?
  {
    exists op :: FirstSignatures(cfg, env, r, ev, op)
  }

  ghost predicate PartialsAnswered(cfg: Cfg, env: Env, r: Request, r': Request, ev: Event, outcome: Outcome)
    requires ev.GraphSigs?
  {
    if !SignaturesTaken(cfg, env, r, ev) then r' == r && DutiesOf(outcome) == []
    else
      && ev.claim in r.graphPartials
      && r'.graphPartials == Contribute(r.graphPartials, ev.claim, ev.signer, ev.partials)
      && DutiesOf(outcome) ==
           if AllIn(cfg, r'.claimTxids, r'.graphPartials)
           then [PublishRootNonce(cfg.depositRequestTxid, Lookup(r.rootNonces, cfg.table.PovKey()))] else []
  }

  /** The verdict is positive exactly on first signatures that verify. */
  lemma VerdictMeans(cfg: Cfg, env: Env, r: Request, pog: map<Txid, Graph>, duties: seq<Duty>, ev: Event, op: OpKey)
    requires CfgOk(cfg, env) && RequestOk(cfg, env, r, pog, duties) && ev.GraphSigs? && ev.signer in cfg.table.Keys()
    requires op in r.inputs && ClaimOf(cfg, r.inputs[op]) == ev.claim && Unpacks(ev.partials)
    requires ev.claim in r.graphPartials && ev.signer !in r.graphPartials[ev.claim] && ev.claim in r.graphNonces
    ensures VerifyPartials(cfg, r, ev, cfg.buildGraph(r.inputs[op])).None? <==> FirstSignatures(cfg, env, r, ev, op)
    ensures var verdict := VerifyPartials(cfg, r, ev, cfg.buildGraph(r.inputs[op]));
      verdict.Some? ==> !verdict.value.Panic? && DutiesOf(verdict.value) == []
  {
    hide InputsOk, CacheOk, RootOk, Fresh, Complete, PartialsOk, SigOk, Sum, Unpacks, GraphsWellFormed;
    hide VerifiedPartialsAggregate;
    KeyFacts(cfg.table);
    var session := r.graphNonces[ev.claim];
    assert NoncesOk(cfg, env, ev.claim, session);
    assert |session| == |session.Keys|;
    if |session| == cfg.table.Size() {
      SubsetOfSameSize(session.Keys, cfg.table.Keys());
    }
  }

  lemma SoleSigner(cfg: Cfg, env: Env, r: Request, ev: Event, a: OpKey, b: OpKey)
    requires CfgOk(cfg, env) && InputsOk(cfg, env, r.inputs) && ev.GraphSigs?
    requires a in r.inputs && ClaimOf(cfg, r.inputs[a]) == ev.claim && FirstSignatures(cfg, env, r, ev, b)
    ensures a == b
  {
    hide CfgOk, InputsOk, AllNonces, Sum, Unpacks;
    if a != b { ClaimsDistinct(cfg, env, r.inputs, a, b); }
  }

  lemma PartialsAreAnswered(cfg: Cfg, env: Env, r: Request, pog: map<Txid, Graph>, duties: seq<Duty>, ev: Event)
    requires CfgOk(cfg, env) && RequestOk(cfg, env, r, pog, duties) && ev.GraphSigs? && ev.signer in cfg.table.Keys()
    ensures var (r', outcome) := AddPartials(cfg, r, pog, ev); PartialsAnswered(cfg, env, r, r', ev, outcome)
  {
    hide CfgOk, RequestOk, Complete, SessionsFull, AggregateAll, WithPartials, Unpacks, Owners, AllIn, FirstSignatures;
    hide VerifyPartials;
    if !Unpacks(ev.partials) || ev.claim !in r.graphPartials || ev.signer in r.graphPartials[ev.claim] {
      NotTaken(cfg, env, r, ev);
    } else {
      PartsOf(cfg, env, r, pog, duties);
      SessionMeansComplete(cfg, env, r, pog, duties, ev.claim);
      var op := OwnerFound(cfg, env, r, pog, ev.claim);
      VerdictMeans(cfg, env, r, pog, duties, ev, op);
      forall o | FirstSignatures(cfg, env, r, ev, o) ensures o == op { SoleSigner(cfg, env, r, ev, op, o); }
      if FirstSignatures(cfg, env, r, ev, op) {
        var r' := WithPartials(r, ev);
        AcceptedGood(cfg, env, r, pog, duties, ev, op);
        SessionsWithinTable(cfg, env, r', pog, duties);
        TableIsValid(cfg, env);
        FullMeansAllIn(cfg, r'.claimTxids, r'.graphPartials);
        WithPartialsFrame(r, ev);
        if SessionsFull(r'.claimTxids, r'.graphPartials, cfg.table.Size()) {
          AggregationGood(cfg, env, r', pog, duties);
          AggregationFrame(cfg, r', pog);
        }
      }
    }
  }

  lemma NotTaken(cfg: Cfg, env: Env, r: Request, ev: Event)
    requires ev.GraphSigs?
    requires !Unpacks(ev.partials) || ev.claim !in r.graphPartials || ev.signer in r.graphPartials[ev.claim]
    ensures !SignaturesTaken(cfg, env, r, ev)
  {
    hide Sum, AllNonces, Unpacks;
  }

  lemma SessionMeansComplete(cfg: Cfg, env: Env, r: Request, pog: map<Txid, Graph>, duties: seq<Duty>, claim: Txid)
    requires RequestOk(cfg, env, r, pog, duties) && claim in r.graphPartials
    ensures Complete(cfg, r) && claim in r.graphNonces
  {
    hide InputsOk, CacheOk, RootOk, SessionsOk, Complete;
    PartialHasSession(cfg, r, claim);
  }

  lemma WithPartialsFrame(r: Request, ev: Event)
    requires ev.GraphSigs? && ev.claim in r.graphPartials
    ensures var r' := WithPartials(r, ev);
      && r'.graphPartials == Contribute(r.graphPartials, ev.claim, ev.signer, ev.partials)
      && r'.claimTxids == r.claimTxids && r'.rootNonces == r.rootNonces
  {
  }

  lemma AggregationFrame(cfg: Cfg, r: Request, pog: map<Txid, Graph>)
    requires AggregateAll(cfg, r, pog).1.Ok?
    ensures var (r', outcome) := AggregateAll(cfg, r, pog);
      && r'.graphPartials == r.graphPartials && r'.claimTxids == r.claimTxids
      && outcome.duties == [PublishRootNonce(cfg.depositRequestTxid, Lookup(r.rootNonces, cfg.table.PovKey()))]
  {
    hide CanAggregate, ByClaim, CachedGraphs, Sorted, AggregateSigs;
  }

  // ---------- the deposit's own signature ----------

  /** A first nonce is stored; the one that completes the set asks for this node's signature over all of them. */
  ghost predicate RootNonceAnswered(cfg: Cfg, r: Request, r': Request, ev: Event, duties: seq<Duty>)
    requires ev.RootNonce?
  {
    if ev.signer in r.rootNonces then r' == r && duties == []
    else
      && r' == r.(rootNonces := r.rootNonces[ev.signer := ev.nonce])
      && duties == if r'.rootNonces.Keys == cfg.table.Keys()
                   then [PublishRootSignature(cfg.depositRequestTxid, Sum(r'.rootNonces))] else []
  }

  lemma RootNonceIsAnswered(cfg: Cfg, r: Request, ev: Event)
    requires cfg.table.Valid() && ev.RootNonce? && ev.signer in cfg.table.Keys()
    requires r.rootNonces.Keys <= cfg.table.Keys()
    ensures var (r', duties) := AddRootNonce(cfg, r, ev); RootNonceAnswered(cfg, r, r', ev, duties)
  {
    hide Sum, InTableOrder;
    var r' := AddRootNonce(cfg, r, ev).0;
    KeyFacts(cfg.table);
    assert |r'.rootNonces| == |r'.rootNonces.Keys|;
    if r'.rootNonces.Keys == cfg.table.Keys() { TableOrderSum(cfg, r'.rootNonces); }
    if |r'.rootNonces| == cfg.table.Size() { SubsetOfSameSize(r'.rootNonces.Keys, cfg.table.Keys()); }
  }

  /** A first signature of an operator with a nonce, which verifies against the nonces held, is stored; the one that
      completes the set publishes the deposit with all of them in table order. */
  ghost predicate RootSigAnswered(cfg: Cfg, r: Request, r': Request, ev: Event, outcome: Outcome)
    requires ev.RootSig?
  {
    var taken :=
      && ev.signer !in r.rootPartials && ev.signer in cfg.table.Keys() && ev.signer in r.rootNonces
      && cfg.verifyRoot(RootCheck(ev.signer, r.rootNonces[ev.signer], Sum(r.rootNonces), ev.partial));
    if !taken then r' == r && DutiesOf(outcome) == []
    else
      && r' == r.(rootPartials := r.rootPartials[ev.signer := ev.partial])
      && (if r'.rootPartials.Keys == cfg.table.Keys() then
            && |DutiesOf(outcome)| == 1 && DutiesOf(outcome)[0].PublishDeposit?
            && DutiesOf(outcome)[0].depositTxid == cfg.depositTxid
            && DutiesOf(outcome)[0].aggNonce == Sum(r.rootNonces)
            && OnePerOperator(cfg, r'.rootPartials, DutiesOf(outcome)[0].partials)
          else DutiesOf(outcome) == [])
  }

  lemma RootSigIsAnswered(cfg: Cfg, r: Request, ev: Event)
    requires cfg.table.Valid() && ev.RootSig? && r.rootPartials.Keys <= cfg.table.Keys()
    ensures var (r', outcome) := AddRootPartial(cfg, r, ev); RootSigAnswered(cfg, r, r', ev, outcome)
  {
    hide Sum, InTableOrder, OnePerOperator;
    var r' := AddRootPartial(cfg, r, ev).0;
    KeyFacts(cfg.table);
    assert |r'.rootPartials| == |r'.rootPartials.Keys|;
    if |r'.rootPartials| == cfg.table.Size() && r'.rootPartials.Keys <= cfg.table.Keys() {
      TableListing(cfg, r'.rootPartials);
      SubsetOfSameSize(r'.rootPartials.Keys, cfg.table.Keys());
    }
  }

  // ---------- over runs ----------

  /** The answer to a message of the signing phase. */
  ghost predicate Answered(cfg: Cfg, env: Env, r: Request, r': Request, ev: Event, outcome: Outcome)
    requires IsMessage(ev)
  {
    match ev
    case DepositSetup(_, _, _, _, _) => SetupAnswered(cfg, r, r', ev, DutiesOf(outcome))
    case GraphNonces(_, _, _) => NoncesAnswered(cfg, env, r, r', ev, outcome)
    case GraphSigs(_, _, _) => PartialsAnswered(cfg, env, r, r', ev, outcome)
    case AggregatedSigs(sigs) =>
      && r' == r.(graphSigs := sigs)
      && DutiesOf(outcome) == [PublishRootNonce(cfg.depositRequestTxid, Lookup(r.rootNonces, cfg.table.PovKey()))]
    case RootNonce(_, _) => RootNonceAnswered(cfg, r, r', ev, DutiesOf(outcome))
    case RootSig(_, _) => RootSigAnswered(cfg, r, r', ev, outcome)
  }

  /** A first setup is stored as sent, a repeated one keeps the stored data; the set is complete exactly when nonces are
      asked for, once per operator in key order, for the operator's own graph.  Every session is then opened empty, also
      when it was not, while aggregate nonces, graph signatures and root data stay. */
  ghost predicate SetupAnswered(cfg: Cfg, r: Request, r': Request, ev: Event, duties: seq<Duty>)
    requires ev.DepositSetup?
  {
    && r'.inputs == r.inputs[ev.op := if ev.op in r.inputs then r.inputs[ev.op]
                                      else GraphInput(ev.stakeTxid, ev.stakeHash, ev.wotsKeys, ev.payoutKey)]
    && r'.aggNonces == r.aggNonces && r'.graphSigs == r.graphSigs
    && r'.rootNonces == r.rootNonces && r'.rootPartials == r.rootPartials
    && (if r'.inputs.Keys != cfg.table.Keys() then duties == []
        else
          var ops := Sorted(cfg.table.Keys());
          && (forall c | c in r'.graphNonces :: r'.graphNonces[c] == map[])
          && (forall c | c in r'.graphPartials :: r'.graphPartials[c] == map[])
          && |duties| == |ops|
          && forall i | 0 <= i < |ops| ::
               && ops[i] in r'.inputs
               && duties[i] == PublishGraphNonces(ClaimOf(cfg, r'.inputs[ops[i]]), cfg.buildGraph(r'.inputs[ops[i]])))
  }

  lemma SetupIsAnswered(cfg: Cfg, env: Env, r: Request, pog: map<Txid, Graph>, duties: seq<Duty>, ev: Event)
    requires CfgOk(cfg, env) && RequestOk(cfg, env, r, pog, duties)
    requires ev.DepositSetup? && ev.op in cfg.table.Keys() && ev.op in env.stake && ev.stakeTxid == env.stake[ev.op]
    ensures var (r', _, more) := Setup(cfg, r, pog, ev); SetupAnswered(cfg, r, r', ev, more)
  {
    hide Setup, RequestOk, CfgOk, Sorted;
    var r' := Setup(cfg, r, pog, ev).0;
    SetupAsksForEveryGraph(cfg, env, r, pog, duties, ev);
    SetupStores(cfg, env, r, pog, duties, ev);
    TableIsValid(cfg, env);
    KeyFacts(cfg.table);
    assert |r'.inputs| == |r'.inputs.Keys|;
    if |r'.inputs| == cfg.table.Size() { SetupOpensSessions(cfg, env, r, pog, duties, ev); }
  }

  lemma SetupOpensSessions(cfg: Cfg, env: Env, r: Request, pog: map<Txid, Graph>, duties: seq<Duty>, ev: Event)
    requires CfgOk(cfg, env) && RequestOk(cfg, env, r, pog, duties)
    requires ev.DepositSetup? && ev.op in cfg.table.Keys() && ev.op in env.stake && ev.stakeTxid == env.stake[ev.op]
    requires |Setup(cfg, r, pog, ev).0.inputs| == cfg.table.Size()
    ensures var r' := Setup(cfg, r, pog, ev).0;
      && (forall c | c in r'.graphNonces :: r'.graphNonces[c] == map[])
      && (forall c | c in r'.graphPartials :: r'.graphPartials[c] == map[])
  {
    hide Install, SetupCache, SetupGraphs, CacheOk, CfgOk, SessionsOk, Fresh, Complete, InputsOk, WithInput, RootOk;
    hide NonceDuties, RebuiltGraphs;
    var r1 := r.(inputs := WithInput(r.inputs, ev));
    CacheKeepsInput(cfg, env, r.inputs, pog, ev);
    InputStored(cfg, env, r, duties, ev);
    SetupGraphsRebuilt(cfg, env.owner, pog, r1.inputs);
    InstallFrame(r1, RebuiltGraphs(cfg, r1.inputs));
    var r' := Setup(cfg, r, pog, ev).0;
    forall c | c in r'.graphNonces ensures r'.graphNonces[c] == map[] { SessionInstalled(cfg, r1, c); }
    forall c | c in r'.graphPartials ensures r'.graphPartials[c] == map[] { SessionInstalled(cfg, r1, c); }
  }

  lemma SetupStores(cfg: Cfg, env: Env, r: Request, pog: map<Txid, Graph>, duties: seq<Duty>, ev: Event)
    requires RequestOk(cfg, env, r, pog, duties)
    requires ev.DepositSetup? && ev.op in env.stake && ev.stakeTxid == env.stake[ev.op]
    ensures Setup(cfg, r, pog, ev).0.inputs ==
      r.inputs[ev.op := if ev.op in r.inputs then r.inputs[ev.op]
                        else GraphInput(ev.stakeTxid, ev.stakeHash, ev.wotsKeys, ev.payoutKey)]
    ensures var r' := Setup(cfg, r, pog, ev).0;
      && r'.aggNonces == r.aggNonces && r'.graphSigs == r.graphSigs
      && r'.rootNonces == r.rootNonces && r'.rootPartials == r.rootPartials
  {
    hide CacheOk, SessionsOk, RootOk, Fresh, Complete, SetupGraphs, SetupCache, NonceDuties, Install;
    InstallFrame(r.(inputs := WithInput(r.inputs, ev)), SetupGraphs(cfg, pog, WithInput(r.inputs, ev)));
  }

  lemma RootKeysWithin(cfg: Cfg, env: Env, r: Request, pog: map<Txid, Graph>, duties: seq<Duty>)
    requires RequestOk(cfg, env, r, pog, duties)
    ensures r.rootNonces.Keys <= cfg.table.Keys() && r.rootPartials.Keys <= cfg.table.Keys()
  {
    hide InputsOk, CacheOk, SessionsOk, Fresh, Complete, SigsComplete;
  }

  /** Over every admissible run: every message of the signing phase is answered with exactly what it calls for. */
  lemma MessagesAreAnswered(cfg: Cfg, env: Env, height: Height, deadline: Height, evs: seq<Event>, ev: Event)
    requires CfgOk(cfg, env) && AdmissibleRun(cfg, env, height, deadline, evs) && IsMessage(ev)
    requires var t := Exec(cfg, height, deadline, evs); t.m.state.Requested? && Admissible(cfg, env, t, ev)
    ensures var m := Exec(cfg, height, deadline, evs).m; var (m', outcome) := Step(cfg, m, ev);
      m'.state.Requested? && Answered(cfg, env, m.state.r, m'.state.r, ev, outcome)
  {
    hide CfgOk, RequestOk, Exec, AdmissibleRun, Setup, AddNonces, AddPartials, AddRootNonce, AddRootPartial;
    hide SetupAnswered, NoncesAnswered, PartialsAnswered, RootNonceAnswered, RootSigAnswered;
    ReachableInvariant(cfg, env, height, deadline, evs);
    var t := Exec(cfg, height, deadline, evs);
    var r := t.m.state.r;
    TableIsValid(cfg, env);
    RootKeysWithin(cfg, env, r, t.m.pog, t.duties);
    match ev
    case DepositSetup(_, _, _, _, _) => SetupIsAnswered(cfg, env, r, t.m.pog, t.duties, ev);
    case GraphNonces(_, _, _) => NoncesAreAnswered(cfg, env, r, t.m.pog, t.duties, ev);
    case GraphSigs(_, _, _) => PartialsAreAnswered(cfg, env, r, t.m.pog, t.duties, ev);
    case AggregatedSigs(_) =>
    case RootNonce(_, _) => RootNonceIsAnswered(cfg, r, ev);
    case RootSig(_, _) => RootSigIsAnswered(cfg, r, ev);
  }
}
