/** Over whole runs: when the deposit signatures verify against the nonces of all operators. */
module ContractRootRuns {
  import opened Collections
  import opened ContractTypes
  import opened ContractSpec
  import opened ContractCache
  import opened ContractInvariant
  import opened ContractLifecycle
  import opened ContractRuns
  import opened ContractRoot

  /** A first root nonce that arrives when a deposit signature is already held. */
  predicate LateNonce(s: ContractState, ev: Event) {
    s.Requested? && ev.RootNonce? && ev.signer !in s.r.rootNonces && s.r.rootPartials != map[]
  }

  ghost predicate NoLateNonce(cfg: Cfg, m: Machine, evs: seq<Event>) {
    evs == [] ||
    (&& NoLateNonce(cfg, m, evs[..|evs| - 1])
     && !LateNonce(Run(cfg, m, evs[..|evs| - 1]).state, evs[|evs| - 1]))
  }

  /** Some signature held was accepted against fewer nonces than are held now. */
  ghost predicate Outdated(cfg: Cfg, r: Request) {
    exists op: OpKey, agg: multiset<Nonce> :: AcceptedWith(cfg, r, op, agg) && |agg| < |r.rootNonces|
  }

  ghost predicate AcceptedWith(cfg: Cfg, r: Request, op: OpKey, agg: multiset<Nonce>) {
    && op in r.rootPartials && op in r.rootNonces
    && cfg.verifyRoot(RootCheck(op, r.rootNonces[op], agg, r.rootPartials[op]))
  }

  lemma OutdatedDoesNotVerify(cfg: Cfg, r: Request)
    requires BindsAggregate(cfg) && Outdated(cfg, r)
    ensures !RootVerified(cfg, r)
  {
    hide Sum;
    var op: OpKey, agg: multiset<Nonce> :| AcceptedWith(cfg, r, op, agg) && |agg| < |r.rootNonces|;
    SumSize(r.rootNonces);
    assert !RootPartialOk(cfg, r, op);
  }

  /** A signature is never replaced and nonces are never taken back, so an outdated one stays outdated. */
  lemma OutdatedStays(cfg: Cfg, r: Request, r': Request)
    requires Outdated(cfg, r) && |r.rootNonces| <= |r'.rootNonces|
    requires forall op | op in r.rootNonces :: op in r'.rootNonces && r'.rootNonces[op] == r.rootNonces[op]
    requires forall op | op in r.rootPartials :: op in r'.rootPartials && r'.rootPartials[op] == r.rootPartials[op]
    ensures Outdated(cfg, r')
  {
    var op: OpKey, agg: multiset<Nonce> :| AcceptedWith(cfg, r, op, agg) && |agg| < |r.rootNonces|;
    assert AcceptedWith(cfg, r', op, agg);
  }

  lemma NonceStep(cfg: Cfg, r: Request, ev: Event)
    requires ev.RootNonce?
    ensures var r' := AddRootNonce(cfg, r, ev).0;
      && (Outdated(cfg, r) ==> Outdated(cfg, r'))
      && (RootVerified(cfg, r) && LateNonce(Requested(r), ev) ==> Outdated(cfg, r'))
      && (RootVerified(cfg, r) && !LateNonce(Requested(r), ev) ==> RootVerified(cfg, r'))
  {
    hide Sum, InTableOrder, Outdated;
    var r' := AddRootNonce(cfg, r, ev).0;
    if ev.signer !in r.rootNonces {
      NewKey(r.rootNonces, ev.signer, ev.nonce);
      if Outdated(cfg, r) { OutdatedStays(cfg, r, r'); }
      if RootVerified(cfg, r) && LateNonce(Requested(r), ev) { BecomesOutdated(cfg, r, r'); }
    }
  }

  lemma BecomesOutdated(cfg: Cfg, r: Request, r': Request)
    requires RootVerified(cfg, r) && r.rootPartials != map[] && r'.rootPartials == r.rootPartials
    requires |r'.rootNonces| == |r.rootNonces| + 1
    requires forall op | op in r.rootNonces :: op in r'.rootNonces && r'.rootNonces[op] == r.rootNonces[op]
    ensures Outdated(cfg, r')
  {
    hide Sum;
    var op :| op in r.rootPartials;
    assert RootPartialOk(cfg, r, op);
    SumSize(r.rootNonces);
    assert AcceptedWith(cfg, r', op, Sum(r.rootNonces));
  }

  lemma SigStep(cfg: Cfg, r: Request, ev: Event)
    requires ev.RootSig?
    ensures var r' := AddRootPartial(cfg, r, ev).0;
      (Outdated(cfg, r) ==> Outdated(cfg, r')) && (RootVerified(cfg, r) ==> RootVerified(cfg, r'))
  {
    hide AddRootPartial, Outdated, RootVerified;
    var r' := AddRootPartial(cfg, r, ev).0;
    if RootVerified(cfg, r) { RootSigKeepsVerified(cfg, r, ev); }
    SignaturesStay(cfg, r, ev);
    if Outdated(cfg, r) { OutdatedStays(cfg, r, r'); }
  }

  lemma SignaturesStay(cfg: Cfg, r: Request, ev: Event)
    requires ev.RootSig?
    ensures var r' := AddRootPartial(cfg, r, ev).0;
      && r'.rootNonces == r.rootNonces
      && forall op | op in r.rootPartials :: op in r'.rootPartials && r'.rootPartials[op] == r.rootPartials[op]
  {
    hide Sum, InTableOrder;
  }

  /** One call: a nonce leaves the signatures held valid if and only if it is not late. */
  lemma RootNonceKeepsVerifiedIff(cfg: Cfg, r: Request, ev: Event)
    requires ev.RootNonce? && BindsAggregate(cfg) && RootVerified(cfg, r)
    ensures RootVerified(cfg, AddRootNonce(cfg, r, ev).0) <==> !LateNonce(Requested(r), ev)
  {
    hide RootVerified, Outdated, BindsAggregate, AddRootNonce;
    NonceStep(cfg, r, ev);
    if LateNonce(Requested(r), ev) { OutdatedDoesNotVerify(cfg, AddRootNonce(cfg, r, ev).0); }
  }

  lemma SetupKeepsRoot(cfg: Cfg, r: Request, pog: map<Txid, Graph>, ev: Event)
    requires ev.DepositSetup?
    ensures var r' := Setup(cfg, r, pog, ev).0; r'.rootNonces == r.rootNonces && r'.rootPartials == r.rootPartials
  {
    hide SetupGraphs, SetupCache, ByClaim, Sorted, NonceDuties;
  }

  lemma NoncesKeepRoot(cfg: Cfg, r: Request, pog: map<Txid, Graph>, ev: Event)
    requires ev.GraphNonces?
    ensures var r' := AddNonces(cfg, r, pog, ev).0; r'.rootNonces == r.rootNonces && r'.rootPartials == r.rootPartials
  {
    hide SigningDuties, SessionsFull, Sorted, WithNonces, WithAggNonces, Unpacks;
    if ev.claim in r.graphNonces {
      WithNoncesKeepsRoot(r, ev);
      WithAggNoncesKeepsRoot(WithNonces(r, ev));
    }
  }

  lemma WithNoncesKeepsRoot(r: Request, ev: Event)
    requires ev.GraphNonces? && ev.claim in r.graphNonces
    ensures var r' := WithNonces(r, ev); r'.rootNonces == r.rootNonces && r'.rootPartials == r.rootPartials
  {
  }

  lemma WithAggNoncesKeepsRoot(r: Request)
    ensures var r' := WithAggNonces(r); r'.rootNonces == r.rootNonces && r'.rootPartials == r.rootPartials
  {
    hide AggregateNonces;
  }

  lemma PartialsKeepRoot(cfg: Cfg, r: Request, pog: map<Txid, Graph>, ev: Event)
    requires ev.GraphSigs?
    ensures var r' := AddPartials(cfg, r, pog, ev).0; r'.rootNonces == r.rootNonces && r'.rootPartials == r.rootPartials
  {
    hide SessionsFull, CanAggregate, ByClaim, VerifyPartials, AggregateSigs, Owners, MinOf, Unpacks, Cached;
    hide RootNonceDuty;
  }

  /** Everything but root messages leaves the root data alone while the contract stays Requested. */
  lemma OthersKeepRoot(cfg: Cfg, m: Machine, ev: Event)
    requires m.state.Requested? && Step(cfg, m, ev).0.state.Requested? && !ev.RootNonce? && !ev.RootSig?
    ensures var r' := Step(cfg, m, ev).0.state.r;
      r'.rootNonces == m.state.r.rootNonces && r'.rootPartials == m.state.r.rootPartials
  {
    hide Setup, AddNonces, AddPartials;
    if IsMessage(ev) {
      if ev.DepositSetup? { SetupKeepsRoot(cfg, m.state.r, m.pog, ev); }
      if ev.GraphNonces? { NoncesKeepRoot(cfg, m.state.r, m.pog, ev); }
      if ev.GraphSigs? { PartialsKeepRoot(cfg, m.state.r, m.pog, ev); }
    } else {
      OnlyMessagesKeepRequested(cfg, m, ev);
    }
  }

  lemma SameRoot(cfg: Cfg, r: Request, r': Request)
    requires r'.rootNonces == r.rootNonces && r'.rootPartials == r.rootPartials
    ensures (Outdated(cfg, r) ==> Outdated(cfg, r')) && (RootVerified(cfg, r) ==> RootVerified(cfg, r'))
  {
    hide Sum, Outdated;
    if Outdated(cfg, r) { OutdatedStays(cfg, r, r'); }
    if RootVerified(cfg, r) {
      forall op | op in r'.rootPartials ensures RootPartialOk(cfg, r', op) { assert RootPartialOk(cfg, r, op); }
    }
  }

  /** One step: verified signatures stay verified unless a late nonce outdates one, and outdated ones stay outdated. */
  lemma RootStep(cfg: Cfg, m: Machine, ev: Event)
    requires m.state.Requested? && Step(cfg, m, ev).0.state.Requested?
    ensures var r, r' := m.state.r, Step(cfg, m, ev).0.state.r;
      && (Outdated(cfg, r) ==> Outdated(cfg, r'))
      && (RootVerified(cfg, r) && LateNonce(m.state, ev) ==> Outdated(cfg, r'))
      && (RootVerified(cfg, r) && !LateNonce(m.state, ev) ==> RootVerified(cfg, r'))
  {
    hide Outdated, RootVerified, AddRootNonce, AddRootPartial, Setup, AddNonces, AddPartials;
    if ev.RootNonce? {
      NonceStep(cfg, m.state.r, ev);
    } else if ev.RootSig? {
      SigStep(cfg, m.state.r, ev);
    } else {
      OthersKeepRoot(cfg, m, ev);
      SameRoot(cfg, m.state.r, Step(cfg, m, ev).0.state.r);
    }
  }

  lemma {:induction false} RunRoot(cfg: Cfg, height: Height, deadline: Height, evs: seq<Event>)
    requires Run(cfg, InitialState(cfg, height, deadline), evs).state.Requested?
    ensures var m0 := InitialState(cfg, height, deadline); var r := Run(cfg, m0, evs).state.r;
      if NoLateNonce(cfg, m0, evs) then RootVerified(cfg, r) else Outdated(cfg, r)
    decreases |evs|
  {
    hide Step, Outdated, RootVerified, LateNonce;
    var m0 := InitialState(cfg, height, deadline);
    if evs == [] {
      NoSignaturesYet(cfg, height, deadline);
    } else {
      var front, ev := evs[..|evs| - 1], evs[|evs| - 1];
      StepMovesForward(cfg, Run(cfg, m0, front), ev);
      RunRoot(cfg, height, deadline, front);
      RootStep(cfg, Run(cfg, m0, front), ev);
    }
  }

  lemma NoSignaturesYet(cfg: Cfg, height: Height, deadline: Height)
    ensures RootVerified(cfg, InitialState(cfg, height, deadline).state.r)
  {
  }

  /** Over every run: the deposit signatures held verify against the nonces held if and only if no operator's first
      root nonce arrived after a signature had been accepted. */
  lemma RootVerifiedIff(cfg: Cfg, height: Height, deadline: Height, evs: seq<Event>)
    requires BindsAggregate(cfg) && Run(cfg, InitialState(cfg, height, deadline), evs).state.Requested?
    ensures var m0 := InitialState(cfg, height, deadline);
      RootVerified(cfg, Run(cfg, m0, evs).state.r) <==> NoLateNonce(cfg, m0, evs)
  {
    hide Run, RootVerified, Outdated, BindsAggregate, NoLateNonce;
    RunRoot(cfg, height, deadline, evs);
    var m0 := InitialState(cfg, height, deadline);
    if !NoLateNonce(cfg, m0, evs) { OutdatedDoesNotVerify(cfg, Run(cfg, m0, evs).state.r); }
  }

  // ---------- the published deposit ----------

  /** Every signature of a publication verifies against the aggregate nonce published with it. */
  ghost predicate PublicationVerifies(cfg: Cfg, nonces: map<OpKey, Nonce>, d: Duty)
    requires d.PublishDeposit? && |d.partials| == cfg.table.Size()
  {
    forall i | 0 <= i < |d.partials| ::
      var op := cfg.table.operators[i].p2pKey;
      op in nonces && cfg.verifyRoot(RootCheck(op, nonces[op], d.aggNonce, d.partials[i]))
  }

  lemma PublicationIsRoot(cfg: Cfg, r: Request, d: Duty)
    requires d.PublishDeposit? && DepositCovered(cfg, r, d)
    ensures PublicationVerifies(cfg, r.rootNonces, d) <==> RootVerified(cfg, r)
  {
    hide Sum, SigsComplete;
    var ops := cfg.table.operators;
    if RootVerified(cfg, r) {
      forall i | 0 <= i < |d.partials| ensures RootPartialOk(cfg, r, ops[i].p2pKey) { }
    }
    if PublicationVerifies(cfg, r.rootNonces, d) {
      forall op | op in r.rootPartials ensures RootPartialOk(cfg, r, op) {
        assert op in cfg.table.Keys();
        var o :| o in ops && o.p2pKey == op;
        var i :| 0 <= i < |ops| && ops[i] == o;
        assert d.partials[i] == r.rootPartials[ops[i].p2pKey];
      }
    }
  }

  /** Over every admissible run that publishes the deposit: its signatures verify if and only if no operator's first
      root nonce arrived after a signature had been accepted. */
  lemma PublishedDepositVerifiesIff(cfg: Cfg, env: Env, height: Height, deadline: Height, evs: seq<Event>, ev: Event,
      d: Duty)
    requires CfgOk(cfg, env) && BindsAggregate(cfg) && AdmissibleRun(cfg, env, height, deadline, evs)
    requires var t := Exec(cfg, height, deadline, evs);
      && Admissible(cfg, env, t, ev) && Step(cfg, t.m, ev).1.Ok? && d in Step(cfg, t.m, ev).1.duties
        && d.PublishDeposit?
    ensures var s' := Step(cfg, Exec(cfg, height, deadline, evs).m, ev).0.state;
      && s'.Requested? && |d.partials| == cfg.table.Size()
      && (PublicationVerifies(cfg, s'.r.rootNonces, d) <==>
        NoLateNonce(cfg, InitialState(cfg, height, deadline), evs + [ev]))
  {
    hide CfgOk, BindsAggregate, AdmissibleRun, Admissible, Step, Exec, Run, RootVerified, PublicationVerifies;
    hide NoLateNonce;
    hide EveryGraphSigned, SigsComplete, Sum;
    DepositSignedOnlyWhenCovered(cfg, env, height, deadline, evs, ev, d);
    var m0 := InitialState(cfg, height, deadline);
    var s' := Step(cfg, Exec(cfg, height, deadline, evs).m, ev).0.state;
    ExecIsRun(cfg, height, deadline, evs);
    RunOneMore(cfg, m0, evs, ev);
    RootVerifiedIff(cfg, height, deadline, evs + [ev]);
    PublicationIsRoot(cfg, s'.r, d);
  }
}
