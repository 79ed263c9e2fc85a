/** Graph signatures, the deposit's own signature and its confirmation keep the invariant. */
module ContractSigning {
  import opened Collections
  import opened ContractTypes
  import opened ContractSpec
  import opened ContractCache
  import opened ContractInvariant
  import opened ContractSafety

  // ---------- graph signatures ----------

  /** A claim with an open session has one owner, whose graph the handler looks up. */
  lemma OwnerFound(cfg: Cfg, env: Env, r: Request, pog: map<Txid, Graph>, claim: Txid) returns (op: OpKey)
    requires CfgOk(cfg, env) && InputsOk(cfg, env, r.inputs) && CacheOk(cfg, env.owner, r.inputs, pog)
    requires Complete(cfg, r)
    requires claim in r.graphPartials
    ensures op in r.inputs && ClaimOf(cfg, r.inputs[op]) == claim && claim in r.graphNonces
    ensures Owners(r.claimTxids, claim) == {op} && MinOf(Owners(r.claimTxids, claim)) == op
    ensures Cached(cfg, pog, r.inputs[op]) == cfg.buildGraph(r.inputs[op])
  {
    hide CfgOk, InputsOk, CacheOk;
    assert HasOwner(cfg, r, claim);
    op :| op in r.inputs && ClaimOf(cfg, r.inputs[op]) == claim;
    assert ClaimOpen(cfg, r, op);
    SoleOwner(cfg, env, r, op);
    assert MinOf(Owners(r.claimTxids, claim)) in {op};
    CachedIsRebuilt(cfg, env.owner, r.inputs, pog, op);
  }

  /** An accepted signature was verified against its signer's own nonces and everyone's aggregate. */
  lemma AcceptedIsVerified(cfg: Cfg, env: Env, r: Request, ev: Event, graph: Graph)
    requires CfgOk(cfg, env) && SessionsOk(cfg, env, r) && ev.GraphSigs? && ev.claim in r.graphNonces
    requires ev.signer in cfg.table.Keys()
    ensures var verdict := VerifyPartials(cfg, r, ev, graph);
      && verdict != Some(Panic)
      && (verdict.None? ==>
            && ev.claim in r.aggNonces
            && var nonces := AllNonces(cfg, env, ev.claim);
               ev.signer in nonces && cfg.verifyGraph(GraphCheck(ev.signer, graph, nonces[ev.signer], Sum(nonces),
                 ev.partials)))
  {
    hide CfgOk, PartialsOk, Sum;
    assert NoncesOk(cfg, env, ev.claim, r.graphNonces[ev.claim]);
    if |r.graphNonces[ev.claim]| == cfg.table.Size() {
      FullSession(cfg, env, ev.claim, r.graphNonces[ev.claim]);
    }
  }

  lemma VerifiedExtends(cfg: Cfg, graph: Graph, nonces: map<OpKey, Nonces>, session: map<OpKey, Partials>,
      signer: OpKey, partials: Partials)
    requires AllVerified(cfg, graph, nonces, session)
    requires signer in nonces && cfg.verifyGraph(GraphCheck(signer, graph, nonces[signer], Sum(nonces), partials))
    ensures AllVerified(cfg, graph, nonces, session[signer := partials])
  {
    hide Sum;
  }

  lemma SessionExtended(cfg: Cfg, env: Env, r: Request, ev: Event, owner: OpKey)
    requires CfgOk(cfg, env) && InputsOk(cfg, env, r.inputs) && ev.GraphSigs? && ev.claim in r.graphPartials
    requires ev.signer in cfg.table.Keys() && owner in r.inputs && ClaimOf(cfg, r.inputs[owner]) == ev.claim
    requires ev.claim in r.aggNonces
    requires PartialsOk(cfg, env, r, ev.claim, r.graphPartials[ev.claim])
    requires var nonces := AllNonces(cfg, env, ev.claim);
      && ev.signer in nonces
      && cfg.verifyGraph(GraphCheck(ev.signer, cfg.buildGraph(r.inputs[owner]), nonces[ev.signer], Sum(nonces),
        ev.partials))
    ensures PartialsOk(cfg, env, r, ev.claim, r.graphPartials[ev.claim][ev.signer := ev.partials])
  {
    hide CfgOk, InputsOk, AllVerified, AllNonces, Sum;
    var session := r.graphPartials[ev.claim];
    forall o | o in r.inputs && ClaimOf(cfg, r.inputs[o]) == ev.claim
      ensures AllVerified(cfg, cfg.buildGraph(r.inputs[o]), AllNonces(cfg, env, ev.claim),
        session[ev.signer := ev.partials])
    {
      ClaimsDistinct(cfg, env, r.inputs, o, owner);
      VerifiedExtends(cfg, cfg.buildGraph(r.inputs[o]), AllNonces(cfg, env, ev.claim), session, ev.signer, ev.partials);
    }
  }

  lemma PartialsAdded(cfg: Cfg, env: Env, r: Request, ev: Event)
    requires ev.GraphSigs? && ev.claim in r.graphPartials && SessionsOk(cfg, env, r)
    requires PartialsOk(cfg, env, r, ev.claim, r.graphPartials[ev.claim][ev.signer := ev.partials])
    ensures SessionsOk(cfg, env, WithPartials(r, ev))
  {
    hide NoncesOk, PartialsOk, AllNonces, Sum;
    var r' := WithPartials(r, ev);
    forall c | c in r'.graphPartials ensures PartialsOk(cfg, env, r', c, r'.graphPartials[c]) {
      PartialsFrame(cfg, env, r, r', c, r'.graphPartials[c]);
    }
  }

  lemma PartialsContributed(cfg: Cfg, env: Env, r: Request, pog: map<Txid, Graph>, duties: seq<Duty>, ev: Event)
    requires RequestOk(cfg, env, r, pog, duties) && ev.GraphSigs? && ev.claim in r.graphPartials && Complete(cfg, r)
    requires PartialsOk(cfg, env, r, ev.claim, r.graphPartials[ev.claim][ev.signer := ev.partials])
    ensures Complete(cfg, WithPartials(r, ev)) && RequestOk(cfg, env, WithPartials(r, ev), pog, duties)
  {
    hide InputsOk, Complete, CacheOk, SessionsOk, RootOk, Fresh, PartialsOk;
    assert WithPartials(r, ev).graphPartials.Keys == r.graphPartials.Keys;
    SameShape(cfg, r, WithPartials(r, ev));
    PartialsAdded(cfg, env, r, ev);
    RootSameShape(cfg, r, WithPartials(r, ev), duties);
  }

  /** A full session aggregates: every operator signed and every signature verified. */
  lemma SessionAggregates(cfg: Cfg, env: Env, r: Request, op: OpKey)
    requires CfgOk(cfg, env) && SessionsOk(cfg, env, r) && Complete(cfg, r) && op in r.inputs
    requires SessionsFull(r.claimTxids, r.graphPartials, cfg.table.Size())
    ensures var claim := ClaimOf(cfg, r.inputs[op]);
      && claim in r.aggNonces && claim in r.graphPartials && r.graphPartials[claim].Keys <= cfg.table.Keys()
      && cfg.aggregates(AggregateCheck(cfg.buildGraph(r.inputs[op]), r.aggNonces[claim], r.graphPartials[claim]))
      && Genuine(cfg, env, r.inputs[op], Aggregate(r.aggNonces[claim], r.graphPartials[claim]))
  {
    hide GraphsWellFormed, NoncesOk, Sum, AllVerified, SigOk;
    assert ClaimOpen(cfg, r, op);
    var claim := ClaimOf(cfg, r.inputs[op]);
    var session := r.graphPartials[claim];
    assert PartialsOk(cfg, env, r, claim, session);
    KeyFacts(cfg.table);
    SubsetOfSameSize(session.Keys, cfg.table.Keys());
    assert AllVerified(cfg, cfg.buildGraph(r.inputs[op]), AllNonces(cfg, env, claim), session);
  }

  lemma AllAggregate(cfg: Cfg, env: Env, r: Request, pog: map<Txid, Graph>)
    requires CfgOk(cfg, env) && InputsOk(cfg, env, r.inputs) && CacheOk(cfg, env.owner, r.inputs, pog)
    requires SessionsOk(cfg, env, r) && Complete(cfg, r)
    requires SessionsFull(r.claimTxids, r.graphPartials, cfg.table.Size())
    ensures var graphs := ByClaim(CachedGraphs(cfg, pog, r.inputs), Sorted(r.inputs.Keys));
      && CanAggregate(cfg, r, graphs)
      && forall op | op in r.inputs :: ClaimOf(cfg, r.inputs[op]) in graphs
  {
    hide CfgOk, InputsOk, CacheOk, SessionsOk, SessionsFull, Complete, Sorted, CachedGraphs;
    CachedGraphsRebuilt(cfg, env.owner, pog, r.inputs);
    ByClaimExact(cfg, env, r.inputs);
    var graphs := ByClaim(RebuiltGraphs(cfg, r.inputs), Sorted(r.inputs.Keys));
    forall claim | claim in graphs
      ensures && claim in r.aggNonces && claim in r.graphPartials && r.graphPartials[claim].Keys <= cfg.table.Keys()
              && cfg.aggregates(AggregateCheck(graphs[claim], r.aggNonces[claim], r.graphPartials[claim]))
    {
      var op :| op in r.inputs && ClaimOf(cfg, r.inputs[op]) == claim;
      SessionAggregates(cfg, env, r, op);
    }
  }

  /** Aggregating yields a signature for every claim and only then asks for the root nonce. */
  lemma AggregationGood(cfg: Cfg, env: Env, r: Request, pog: map<Txid, Graph>, duties: seq<Duty>)
    requires CfgOk(cfg, env) && RequestOk(cfg, env, r, pog, duties) && Complete(cfg, r)
    requires SessionsFull(r.claimTxids, r.graphPartials, cfg.table.Size())
    ensures var (r', outcome) := AggregateAll(cfg, r, pog);
      outcome.Ok? && RequestOk(cfg, env, r', pog, duties + outcome.duties)
  {
    hide CfgOk, InputsOk, CacheOk, SessionsOk, Fresh, SessionsFull, Complete, Sorted, ByClaim, CachedGraphs, RootOk;
    hide CanAggregate;
    var (r', outcome) := AggregateAll(cfg, r, pog);
    AllAggregate(cfg, env, r, pog);
    AllClaimed(cfg, r, r'.graphSigs);
    forall op | op in r'.inputs ensures SigOk(cfg, env, r', op) {
      SessionAggregates(cfg, env, r, op);
    }
    WithSigs(cfg, env, r, pog, duties, r'.graphSigs);
  }

  lemma AllClaimed(cfg: Cfg, r: Request, sigs: map<Txid, GraphSig>)
    requires Complete(cfg, r) && forall op | op in r.inputs :: ClaimOf(cfg, r.inputs[op]) in sigs
    ensures SigsComplete(cfg, r.claimTxids, sigs)
  {
    forall op | op in r.claimTxids ensures r.claimTxids[op] in sigs {
      assert ClaimOpen(cfg, r, op);
    }
  }

  /** Storing a complete set of signatures and asking for the root nonce. */
  lemma WithSigs(cfg: Cfg, env: Env, r: Request, pog: map<Txid, Graph>, duties: seq<Duty>, sigs: map<Txid, GraphSig>)
    requires RequestOk(cfg, env, r, pog, duties) && Complete(cfg, r) && SigsComplete(cfg, r.claimTxids, sigs)
    requires forall op | op in r.inputs :: SigOk(cfg, env, r.(graphSigs := sigs), op)
    ensures RequestOk(cfg, env, r.(graphSigs := sigs), pog, duties + [RootNonceDuty(cfg, r.rootNonces)])
  {
    hide InputsOk, CacheOk, SessionsOk, Fresh, Complete, PartialsOk, NoncesOk;
    var r' := r.(graphSigs := sigs);
    SameShape(cfg, r, r');
    SigsKeepSessions(cfg, env, r, sigs);
    AskedAppend(duties, [RootNonceDuty(cfg, r.rootNonces)]);
    assert RootNonceDuty(cfg, r.rootNonces) in [RootNonceDuty(cfg, r.rootNonces)];
  }

  lemma SigsKeepSessions(cfg: Cfg, env: Env, r: Request, sigs: map<Txid, GraphSig>)
    requires SessionsOk(cfg, env, r) && forall op | op in r.inputs :: SigOk(cfg, env, r.(graphSigs := sigs), op)
    ensures SessionsOk(cfg, env, r.(graphSigs := sigs))
  {
    hide PartialsOk, NoncesOk, Sum, AllNonces;
    forall c | c in r.graphPartials ensures PartialsOk(cfg, env, r.(graphSigs := sigs), c, r.graphPartials[c]) {
      PartialsFrame(cfg, env, r, r.(graphSigs := sigs), c, r.graphPartials[c]);
    }
  }

  /** A verified signature enters its session; the rest of the state is as before. */
  lemma AcceptedGood(cfg: Cfg, env: Env, r: Request, pog: map<Txid, Graph>, duties: seq<Duty>, ev: Event, op: OpKey)
    requires CfgOk(cfg, env) && RequestOk(cfg, env, r, pog, duties) && Complete(cfg, r)
    requires ev.GraphSigs? && ev.signer in cfg.table.Keys() && ev.claim in r.graphPartials && ev.claim in r.graphNonces
    requires op in r.inputs && ClaimOf(cfg, r.inputs[op]) == ev.claim
    requires VerifyPartials(cfg, r, ev, cfg.buildGraph(r.inputs[op])).None?
    ensures Complete(cfg, WithPartials(r, ev)) && RequestOk(cfg, env, WithPartials(r, ev), pog, duties)
  {
    hide CfgOk, InputsOk, CacheOk, RootOk, Fresh, Complete, VerifyPartials, PartialsOk, NoncesOk, Sum, AllNonces;
    AcceptedIsVerified(cfg, env, r, ev, cfg.buildGraph(r.inputs[op]));
    SessionExtended(cfg, env, r, ev, op);
    PartialsContributed(cfg, env, r, pog, duties, ev);
  }

  lemma PartialsGood(cfg: Cfg, env: Env, r: Request, pog: map<Txid, Graph>, duties: seq<Duty>, ev: Event)
    requires CfgOk(cfg, env) && RequestOk(cfg, env, r, pog, duties) && ev.GraphSigs? && ev.signer in cfg.table.Keys()
    ensures var (r', outcome) := AddPartials(cfg, r, pog, ev);
      HandlerGood(cfg, env, r, pog, duties, r', pog, outcome)
  {
    hide CfgOk, InputsOk, CacheOk, SessionsOk, RootOk, Fresh, Complete, SessionsFull, AggregateAll, WithPartials;
    hide Unpacks;
    hide Owners;
    NothingNew(duties);
    if ev.claim in r.graphPartials && ev.signer !in r.graphPartials[ev.claim] {
      if Fresh(r) { FreshHasNoSessions(r); }
      var op := OwnerFound(cfg, env, r, pog, ev.claim);
      var graph := cfg.buildGraph(r.inputs[op]);
      AcceptedIsVerified(cfg, env, r, ev, graph);
      if VerifyPartials(cfg, r, ev, graph).None? {
        AcceptedGood(cfg, env, r, pog, duties, ev, op);
        var r' := WithPartials(r, ev);
        if SessionsFull(r'.claimTxids, r'.graphPartials, cfg.table.Size()) {
          AggregationGood(cfg, env, r', pog, duties);
        }
      }
    }
  }

  /** Signatures handed in ready-made: only a complete state has claims for them to cover. */
  lemma AggregatedSigsGood(cfg: Cfg, env: Env, r: Request, pog: map<Txid, Graph>, duties: seq<Duty>,
      sigs: map<Txid, GraphSig>)
    requires CfgOk(cfg, env) && RequestOk(cfg, env, r, pog, duties) && SigsComplete(cfg, r.claimTxids, sigs)
    requires forall c | c in sigs :: sigs[c].Supplied?
    ensures RequestOk(cfg, env, r.(graphSigs := sigs), pog, duties + [RootNonceDuty(cfg, r.rootNonces)])
  {
    hide RequestOk, InputsOk, CacheOk, SessionsOk, RootOk, GraphsWellFormed, VerifiedPartialsAggregate;
    KeyFacts(cfg.table);
    ClaimsMeanComplete(cfg, env, r, pog, duties);
    WithSigs(cfg, env, r, pog, duties, sigs);
  }

  lemma ClaimsMeanComplete(cfg: Cfg, env: Env, r: Request, pog: map<Txid, Graph>, duties: seq<Duty>)
    requires RequestOk(cfg, env, r, pog, duties) && r.claimTxids.Keys != {}
    ensures Complete(cfg, r)
  {
    hide InputsOk, CacheOk, SessionsOk, RootOk, Complete;
  }

  // ---------- the deposit's own signature ----------

  /** Root data do not enter the other parts of the invariant. */
  lemma RootFrame(cfg: Cfg, env: Env, r: Request, r': Request, pog: map<Txid, Graph>, duties: seq<Duty>,
      duties': seq<Duty>)
    requires RequestOk(cfg, env, r, pog, duties)
    requires r' == r.(rootNonces := r'.rootNonces, rootPartials := r'.rootPartials)
    requires r'.rootNonces.Keys <= cfg.table.Keys() && r'.rootPartials.Keys <= r'.rootNonces.Keys
    requires cfg.table.PovKey() in r'.rootNonces ==> Asked(duties)
    requires Asked(duties') == Asked(duties) && (Signed(duties') ==> Asked(duties'))
    ensures RequestOk(cfg, env, r', pog, duties')
  {
    hide InputsOk, CacheOk, Asked, Signed, SigsComplete, Complete, NoncesOk, PartialsOk, AllNonces, Sum;
    if Complete(cfg, r) { SameShape(cfg, r, r'); }
    forall c | c in r'.graphPartials ensures PartialsOk(cfg, env, r', c, r'.graphPartials[c]) {
      PartialsFrame(cfg, env, r, r', c, r.graphPartials[c]);
    }
  }

  lemma EveryoneContributed<V>(cfg: Cfg, contributions: map<OpKey, V>)
    requires cfg.table.Valid() && contributions.Keys <= cfg.table.Keys() && |contributions| == cfg.table.Size()
    ensures contributions.Keys == cfg.table.Keys() && cfg.table.PovKey() in contributions
  {
    KeyFacts(cfg.table);
    SubsetOfSameSize(contributions.Keys, cfg.table.Keys());
  }

  lemma RootNonceGood(cfg: Cfg, env: Env, r: Request, pog: map<Txid, Graph>, duties: seq<Duty>, ev: Event)
    requires CfgOk(cfg, env) && RequestOk(cfg, env, r, pog, duties) && ev.RootNonce?
    requires ev.signer in cfg.table.Keys() && (ev.signer == cfg.table.PovKey() ==> Asked(duties))
    ensures var (r', more) := AddRootNonce(cfg, r, ev); RequestOk(cfg, env, r', pog, duties + more)
  {
    hide InputsOk, CacheOk, SessionsOk, Fresh, SigsComplete, Complete, InTableOrder, GraphsWellFormed;
    hide VerifiedPartialsAggregate;
    hide Asked, Signed;
    var (r', more) := AddRootNonce(cfg, r, ev);
    NothingNew(duties);
    if ev.signer !in r.rootNonces {
      AskedAppend(duties, more);
      NoRootNonceDuty(more);
      if |r'.rootNonces| == cfg.table.Size() {
        EveryoneContributed(cfg, r'.rootNonces);
      }
      RootFrame(cfg, env, r, r', pog, duties, duties + more);
    }
  }

  lemma NoRootNonceDuty(more: seq<Duty>)
    requires forall d | d in more :: !d.PublishRootNonce?
    ensures !Asked(more)
    ensures more == [] ==> !Signed(more)
  {
  }

  lemma RootSigGood(cfg: Cfg, env: Env, r: Request, pog: map<Txid, Graph>, duties: seq<Duty>, ev: Event)
    requires CfgOk(cfg, env) && RequestOk(cfg, env, r, pog, duties) && ev.RootSig?
    ensures var (r', outcome) := AddRootPartial(cfg, r, ev);
      HandlerGood(cfg, env, r, pog, duties, r', pog, outcome)
  {
    hide InputsOk, CacheOk, SessionsOk, Fresh, SigsComplete, Complete, InTableOrder, CfgOk, Sum, Asked, Signed;
    var (r', outcome) := AddRootPartial(cfg, r, ev);
    NothingNew(duties);
    if outcome.Ok? {
      RootFrame(cfg, env, r, r', pog, duties, duties);
      assert forall d | d in outcome.duties :: !d.PublishRootNonce? && !d.PublishRootSignature?;
      RootOkAppend(cfg, r', duties, outcome.duties);
    }
  }

  // ---------- deposit confirmation ----------

  /** Claims are injective and in step with inputs and summaries, so no `expect` is met. */
  lemma ConfirmableWhenComplete(cfg: Cfg, env: Env, r: Request)
    requires CfgOk(cfg, env) && InputsOk(cfg, env, r.inputs) && Complete(cfg, r)
    ensures CanConfirm(r)
  {
    hide CfgOk, InputsOk;
    forall op | op in r.claimTxids ensures r.claimTxids[op] in r.summaries {
      assert ClaimOpen(cfg, r, op);
    }
    forall a, b | a in r.claimTxids && b in r.claimTxids && a != b ensures r.claimTxids[a] != r.claimTxids[b] {
      assert ClaimOpen(cfg, r, a) && ClaimOpen(cfg, r, b);
      if r.claimTxids[a] == r.claimTxids[b] { ClaimsDistinct(cfg, env, r.inputs, a, b); }
    }
  }

  /** Each claim is paired with its own operator's input and the summary built from it. */
  lemma ClaimPaired(cfg: Cfg, r: Request, op: OpKey)
    requires CanConfirm(r) && Complete(cfg, r) && op in r.claimTxids
    ensures var claim := r.claimTxids[op];
      && claim in PairGraphs(r)
      && PairGraphs(r)[claim] == (r.inputs[op], cfg.buildGraph(r.inputs[op]).summary)
      && claim == ClaimOf(cfg, r.inputs[op])
  {
    assert ClaimOpen(cfg, r, op);
  }

  lemma ConfirmedGraphs(cfg: Cfg, r: Request)
    requires CanConfirm(r) && Complete(cfg, r) && SigsComplete(cfg, r.claimTxids, r.graphSigs)
    ensures GraphsOk(cfg, Graphs(PairGraphs(r), r.claimTxids, r.graphSigs))
  {
    hide CanConfirm, Complete, PairGraphs;
    var g := Graphs(PairGraphs(r), r.claimTxids, r.graphSigs);
    forall op | op in g.claimTxids ensures GraphPaired(cfg, g, g.claimTxids[op]) {
      ClaimPaired(cfg, r, op);
    }
  }

  lemma ConfirmationGood(cfg: Cfg, env: Env, m: Machine, duties: seq<Duty>, tx: Tx)
    requires CfgOk(cfg, env) && m.state.Requested? && RequestOk(cfg, env, m.state.r, m.pog, duties)
    requires tx.txid == cfg.depositTxid ==> SigsComplete(cfg, m.state.r.claimTxids, m.state.r.graphSigs)
    ensures var (m', outcome) := ProcessDepositConfirmation(cfg, m, tx);
      && !outcome.Panic?
      && (outcome.Rejected? ==> m' == m)
      && (outcome.Ok? ==> m'.state.Deposited? && LifeOk(cfg, m'.state))
  {
    hide InputsOk, CacheOk, SessionsOk, Fresh, Complete, Signed, Asked, PairGraphs, CanConfirm, GraphsOk;
    hide GraphsWellFormed, VerifiedPartialsAggregate;
    if tx.txid == cfg.depositTxid {
      KeyFacts(cfg.table);
      ClaimsMeanComplete(cfg, env, m.state.r, m.pog, duties);
      ConfirmableWhenComplete(cfg, env, m.state.r);
      ConfirmedGraphs(cfg, m.state.r);
    }
  }

  // ---------- after the deposit ----------

  lemma AssignmentGood(cfg: Cfg, s: ContractState, ev: Event)
    requires ev.Assignment? && LifeOk(cfg, s)
    ensures var (s', outcome) := ProcessAssignment(cfg, s, ev);
      LifeOk(cfg, s') && !outcome.Panic? && (outcome.Rejected? ==> s' == s) && (s'.Requested? ==> s.Requested?)
  {
    hide GraphsOk;
  }

  /** The fulfiller's own claim carries an aggregate signature. */
  lemma ActiveSigned(cfg: Cfg, s: ContractState)
    requires HasActive(s) && LifeOk(cfg, s)
    ensures s.active.1.claimTxid in s.g.graphSigs
    ensures s.active.1 == cfg.buildGraph(s.active.0).summary
  {
    var key := cfg.table.KeyOfIdx(s.fulfiller).value;
    assert GraphPaired(cfg, s.g, s.g.claimTxids[key]);
  }

  lemma BlockGood(cfg: Cfg, s: ContractState, height: Height)
    requires LifeOk(cfg, s)
    ensures BlockDuty(cfg, s, height).Ok?
  {
    if HasActive(s) { ActiveSigned(cfg, s); }
  }
}
