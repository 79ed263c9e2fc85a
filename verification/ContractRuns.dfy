/** Safety of the deposit contract over every admissible run. */
module ContractRuns {
  import opened Collections
  import opened ContractTypes
  import opened ContractSpec
  import opened ContractCache
  import opened ContractInvariant
  import opened ContractSafety
  import opened ContractSigning
  import opened ContractLifecycle
  import opened ContractRejections

  // ---------- confirmations after the deposit ----------

  /** The active graph has its full complement of distinct assert-data transactions. */
  lemma ActiveAsserts(cfg: Cfg, s: ContractState)
    requires GraphsWellFormed(cfg) && HasActive(s) && LifeOk(cfg, s)
    ensures |s.active.1.assertDataTxids| == NUM_ASSERT_DATA_TX
    ensures |Elems(s.active.1.assertDataTxids)| == NUM_ASSERT_DATA_TX
  {
    hide LifeOk, NoDup;
    ActiveSigned(cfg, s);
    NoDupSize(s.active.1.assertDataTxids);
  }

  /** Pigeonhole: a new assert-data confirmation moves the machine on exactly when it was the last one missing. */
  lemma AssertDataLeavesIff(cfg: Cfg, s: ContractState, tx: Tx)
    requires GraphsWellFormed(cfg) && s.PreAssertConfirmed? && LifeOk(cfg, s)
    requires tx.txid in s.active.1.assertDataTxids
    ensures var (s', outcome) := ConfirmAssertData(cfg, s, tx);
      && outcome.Ok? && LifeOk(cfg, s')
      && s'.signedAsserts == s.signedAsserts[tx.txid := tx]
      && (s'.AssertDataConfirmed? <==> s.signedAsserts.Keys + {tx.txid} == Elems(s.active.1.assertDataTxids))
      && (s'.PreAssertConfirmed? <==> !s'.AssertDataConfirmed?)
  {
    hide GraphsOk, GraphsWellFormed, ActiveOk;
    ActiveAsserts(cfg, s);
    ActiveSigned(cfg, s);
    var all := Elems(s.active.1.assertDataTxids);
    var signed := s.signedAsserts[tx.txid := tx];
    assert signed.Keys == s.signedAsserts.Keys + {tx.txid};
    SubsetSize(signed.Keys, all);
    if |signed| == NUM_ASSERT_DATA_TX { SubsetOfSameSize(signed.Keys, all); }
  }

  /** Once all assert-data transactions are in, the post-assert handler finds every one of them. */
  lemma PostAssertFindsAll(cfg: Cfg, s: ContractState, tx: Tx, height: Height)
    requires GraphsWellFormed(cfg) && s.AssertDataConfirmed? && LifeOk(cfg, s)
    ensures AllSigned(s.active.1.assertDataTxids, s.signedAsserts)
    ensures var (s', outcome) := ConfirmPostAssert(cfg, s, tx, height);
      && LifeOk(cfg, s') && !outcome.Panic? && !s'.Requested?
      && (outcome.Rejected? <==>
            || tx.txid != s.active.1.postAssertTxid
            || cfg.parseAsserts(AssertBatch(Images(s.active.1.assertDataTxids, s.signedAsserts))).None?)
      && (outcome.Rejected? ==> s' == s)
  {
    hide GraphsOk, GraphsWellFormed, ActiveOk;
    ActiveAsserts(cfg, s);
    assert s.signedAsserts.Keys == Elems(s.active.1.assertDataTxids);
    assert |s.signedAsserts| == |s.signedAsserts.Keys|;
  }

  lemma PreAssertGood(cfg: Cfg, s: ContractState, tx: Tx)
    requires (s.Claimed? || s.Challenged?) && LifeOk(cfg, s)
    requires forall x: GraphInput :: cfg.buildGraph(x).summary.preAssertTxid == tx.txid ==>
      |tx.outputs| >= NUM_ASSERT_DATA_TX
    ensures var (s', outcome) := ConfirmPreAssert(cfg, s, tx);
      LifeOk(cfg, s') && !outcome.Panic? && (outcome.Rejected? ==> s' == s) && !s'.Requested?
  {
    hide GraphsOk, ActiveOk;
    ActiveSigned(cfg, s);
    var m: map<Txid, Tx> := map[];
    assert |m| == 0;
  }

  lemma ConfirmGood(cfg: Cfg, s: ContractState, tx: Tx, height: Height)
    requires GraphsWellFormed(cfg) && LifeOk(cfg, s)
    requires forall x: GraphInput :: cfg.buildGraph(x).summary.preAssertTxid == tx.txid ==>
      |tx.outputs| >= NUM_ASSERT_DATA_TX
    ensures var (s', outcome) := Confirm(cfg, s, tx, height);
      LifeOk(cfg, s') && !outcome.Panic? && (outcome.Rejected? ==> s' == s) && (s'.Requested? ==> s.Requested?)
  {
    hide GraphsOk, ActiveOk, GraphsWellFormed, ConfirmPreAssert, ConfirmPostAssert, IsChallenge, IsDisprove;
    if s.Claimed? || s.Challenged? {
      PreAssertGood(cfg, s, tx);
    } else if s.PreAssertConfirmed? {
      if tx.txid in s.active.1.assertDataTxids { AssertDataLeavesIff(cfg, s, tx); }
    } else if s.AssertDataConfirmed? {
      PostAssertFindsAll(cfg, s, tx, height);
    }
  }

  // ---------- single steps ----------

  lemma MessageGood(cfg: Cfg, env: Env, t: Trace, ev: Event)
    requires CfgOk(cfg, env) && Inv(cfg, env, t.m, t.duties) && Admissible(cfg, env, t, ev) && IsMessage(ev)
    ensures GoodStep(cfg, env, t, ev)
  {
    hide CfgOk, RequestOk, LifeOk, Setup, AddNonces, AddPartials, AddRootNonce, AddRootPartial, SigsComplete, Asked;
    hide RootNonceDuty;
    var m := t.m;
    NothingNew(t.duties);
    if m.state.Requested? {
      var r := m.state.r;
      match ev
      case DepositSetup(_, _, _, _, _) => SetupGood(cfg, env, r, m.pog, t.duties, ev);
      case GraphNonces(_, _, _) => NoncesGood(cfg, env, r, m.pog, t.duties, ev);
      case GraphSigs(_, _, _) => PartialsGood(cfg, env, r, m.pog, t.duties, ev);
      case AggregatedSigs(sigs) => AggregatedSigsGood(cfg, env, r, m.pog, t.duties, sigs);
      case RootNonce(_, _) => RootNonceGood(cfg, env, r, m.pog, t.duties, ev);
      case RootSig(_, _) => RootSigGood(cfg, env, r, m.pog, t.duties, ev);
    }
  }

  /** Duties of chain events leave the Requested state's bookkeeping alone. */
  lemma IdleGood(cfg: Cfg, env: Env, r: Request, pog: map<Txid, Graph>, duties: seq<Duty>, more: seq<Duty>)
    requires RequestOk(cfg, env, r, pog, duties)
    requires forall d | d in more :: !d.PublishRootNonce? && !d.PublishRootSignature?
    ensures RequestOk(cfg, env, r, pog, duties + more)
  {
    hide InputsOk, CacheOk, SessionsOk, Fresh, Complete, RootOk;
    RootOkAppend(cfg, r, duties, more);
  }

  lemma ChainEventGood(cfg: Cfg, env: Env, t: Trace, ev: Event)
    requires CfgOk(cfg, env) && Inv(cfg, env, t.m, t.duties) && Admissible(cfg, env, t, ev) && !IsMessage(ev)
    ensures GoodStep(cfg, env, t, ev)
  {
    hide VerifiedPartialsAggregate, RequestOk, ProcessDepositConfirmation, ProcessAssignment, Confirm, SigsComplete;
    hide GraphsOk, ActiveOk;
    hide GraphsWellFormed;
    var m := t.m;
    NothingNew(t.duties);
    if ev.DepositConfirmation? {
      if m.state.Requested? {
        ConfirmationGood(cfg, env, m, t.duties, ev.tx);
        assert Step(cfg, m, ev) == ProcessDepositConfirmation(cfg, m, ev.tx);
      } else {
        ConfirmationLate(cfg, m, ev.tx);
      }
    } else if m.state.Requested? {
      RequestedIdles(cfg, m, ev);
      if Step(cfg, m, ev).1.Ok? && Step(cfg, m, ev).0.state.Requested? {
        IdleGood(cfg, env, m.state.r, m.pog, t.duties, Step(cfg, m, ev).1.duties);
      }
    } else {
      match ev
      case Assignment(_, _, _) => AssignmentGood(cfg, m.state, ev);
      case PegOutGraphConfirmation(tx, height) => ConfirmGood(cfg, m.state, tx, height);
      case Block(height) => BlockGood(cfg, m.state, height);
      case ClaimFailure =>
      case AssertionFailure =>
    }
  }

  lemma ConfirmationLate(cfg: Cfg, m: Machine, tx: Tx)
    requires !m.state.Requested?
    ensures ProcessDepositConfirmation(cfg, m, tx) == (m, Rejected)
  {
  }

  /** Before the deposit only the abort deadline moves the state on a chain event. */
  lemma RequestedIdles(cfg: Cfg, m: Machine, ev: Event)
    requires m.state.Requested? && !IsMessage(ev) && !ev.DepositConfirmation?
    ensures var (m', outcome) := Step(cfg, m, ev);
      && !outcome.Panic? && m'.pog == m.pog
      && (m'.state == m.state || (m'.state == Aborted && outcome == Ok([Abort])))
      && (outcome.Rejected? ==> m' == m)
      && (outcome.Ok? ==> forall d | d in outcome.duties :: !d.PublishRootNonce? && !d.PublishRootSignature?)
  {
  }

  lemma StepGood(cfg: Cfg, env: Env, t: Trace, ev: Event)
    requires CfgOk(cfg, env) && Inv(cfg, env, t.m, t.duties) && Admissible(cfg, env, t, ev)
    ensures GoodStep(cfg, env, t, ev)
  {
    hide CfgOk, Inv, Admissible, GoodStep;
    if IsMessage(ev) { MessageGood(cfg, env, t, ev); } else { ChainEventGood(cfg, env, t, ev); }
  }

  lemma InitialGood(cfg: Cfg, env: Env, height: Height, deadline: Height)
    requires CfgOk(cfg, env)
    ensures Inv(cfg, env, InitialState(cfg, height, deadline), [])
  {
    KeyFacts(cfg.table);
  }

  // ---------- runs ----------

  /** The cross-map invariant holds in every reachable state. */
  lemma {:induction false} ReachableInvariant(cfg: Cfg, env: Env, height: Height, deadline: Height, evs: seq<Event>)
    requires CfgOk(cfg, env) && AdmissibleRun(cfg, env, height, deadline, evs)
    ensures var t := Exec(cfg, height, deadline, evs); Inv(cfg, env, t.m, t.duties)
    decreases |evs|
  {
    hide CfgOk, Inv, Admissible, InitialState, Step;
    if evs == [] {
      InitialGood(cfg, env, height, deadline);
    } else {
      var front := evs[..|evs| - 1];
      ReachableInvariant(cfg, env, height, deadline, front);
      StepGood(cfg, env, Exec(cfg, height, deadline, front), evs[|evs| - 1]);
    }
  }

  /** In every reachable state an admissible event never panics. */
  lemma NeverPanics(cfg: Cfg, env: Env, height: Height, deadline: Height, evs: seq<Event>, ev: Event)
    requires CfgOk(cfg, env) && AdmissibleRun(cfg, env, height, deadline, evs)
    requires Admissible(cfg, env, Exec(cfg, height, deadline, evs), ev)
    ensures !Step(cfg, Exec(cfg, height, deadline, evs).m, ev).1.Panic?
  {
    hide CfgOk, Inv, Admissible, Exec, Step, AdmissibleRun;
    ReachableInvariant(cfg, env, height, deadline, evs);
    StepGood(cfg, env, Exec(cfg, height, deadline, evs), ev);
  }

  /** None of the late lookups that follow a write can fail in a reachable state. */
  lemma LateLookupsSucceed(cfg: Cfg, env: Env, m: Machine, duties: seq<Duty>, ev: Event)
    requires Inv(cfg, env, m, duties)
    ensures !LateLookupFails(cfg, m, ev)
  {
    hide InputsOk, CacheOk, SessionsOk, RootOk, SessionsFull, Unpacks, Owners;
    if m.state.Requested? {
      var r := m.state.r;
      forall op | op in r.claimTxids
        ensures !OwnerLacksInput(r, op)
      {
        OwnersHaveInputs(cfg, env, r, m.pog, duties, op);
      }
    } else if HasActive(m.state) {
      ActiveSigned(cfg, m.state);
    }
  }

  lemma OwnersHaveInputs(cfg: Cfg, env: Env, r: Request, pog: map<Txid, Graph>, duties: seq<Duty>, op: OpKey)
    requires RequestOk(cfg, env, r, pog, duties) && op in r.claimTxids
    ensures !OwnerLacksInput(r, op)
  {
    hide InputsOk, CacheOk, SessionsOk, RootOk, Sorted;
    assert op in Owners(r.claimTxids, r.claimTxids[op]);
    assert LastOwner(r.claimTxids, r.claimTxids[op]) in r.claimTxids;
  }

  /** In every reachable state, whatever event is rejected leaves the persisted state exactly as it was. */
  lemma RejectionIsHarmless(cfg: Cfg, env: Env, height: Height, deadline: Height, evs: seq<Event>, ev: Event)
    requires CfgOk(cfg, env) && AdmissibleRun(cfg, env, height, deadline, evs)
    ensures var m := Exec(cfg, height, deadline, evs).m;
            var (m', outcome) := Step(cfg, m, ev);
      outcome.Rejected? ==> m'.blockHeight == m.blockHeight && m'.state == m.state
  {
    hide CfgOk, Inv, Exec, Step, AdmissibleRun, LateLookupFails;
    var t := Exec(cfg, height, deadline, evs);
    ReachableInvariant(cfg, env, height, deadline, evs);
    LateLookupsSucceed(cfg, env, t.m, t.duties, ev);
    RejectionChangesStateIff(cfg, t.m, ev);
  }

  /** Once this node has been told to sign, the environment's promise about deposit confirmations is met. */
  lemma SignedMayConfirm(cfg: Cfg, env: Env, height: Height, deadline: Height, evs: seq<Event>, tx: Tx)
    requires CfgOk(cfg, env) && AdmissibleRun(cfg, env, height, deadline, evs)
    requires Signed(Exec(cfg, height, deadline, evs).duties)
    ensures Admissible(cfg, env, Exec(cfg, height, deadline, evs), DepositConfirmation(tx))
  {
    hide CfgOk, InputsOk, CacheOk, SessionsOk, Fresh, Complete, SigsComplete, Asked, Signed, Exec, AdmissibleRun;
    hide LifeOk;
    ReachableInvariant(cfg, env, height, deadline, evs);
  }

  // ---------- when the deposit is signed ----------

  /** With a contribution from everyone, table order lists one per operator. */
  lemma {:induction false} TableOrderIsComplete(ops: seq<Operator>, contributions: map<OpKey, nat>)
    requires forall o | o in ops :: o.p2pKey in contributions
    ensures |InTableOrder(ops, contributions)| == |ops|
    ensures forall i | 0 <= i < |ops| :: InTableOrder(ops, contributions)[i] == contributions[ops[i].p2pKey]
    decreases |ops|
  {
    if ops != [] {
      assert ops[0] in ops && forall o | o in ops[1..] :: o in ops;
      TableOrderIsComplete(ops[1..], contributions);
    }
  }

  /** Summing in table order, as one handler does, and in key order, as another does, agree. */
  lemma TableOrderSum(cfg: Cfg, nonces: map<OpKey, Nonce>)
    requires cfg.table.Valid() && nonces.Keys == cfg.table.Keys()
    ensures multiset(InTableOrder(cfg.table.operators, nonces)) == Sum(nonces)
  {
    hide Sum, InTableOrder;
    var ops := cfg.table.operators;
    var keys := cfg.table.KeySeq();
    KeyFacts(cfg.table);
    forall o | o in ops ensures o.p2pKey in nonces { assert o.p2pKey in cfg.table.Keys(); }
    TableOrderIsComplete(ops, nonces);
    SumInAnyOrder(keys, nonces);
    assert InTableOrder(ops, nonces) == Images(keys, nonces);
  }

  /** One contribution from every operator, in table order. */
  ghost predicate OnePerOperator(cfg: Cfg, contributions: map<OpKey, nat>, listed: seq<nat>) {
    && contributions.Keys == cfg.table.Keys()
    && |listed| == cfg.table.Size()
    && forall i | 0 <= i < |listed| ::
         cfg.table.operators[i].p2pKey in contributions && listed[i] == contributions[cfg.table.operators[i].p2pKey]
  }

  /** All graphs are signed and the duty carries everyone's nonces and, for the deposit, everyone's signature. */
  ghost predicate DepositCovered(cfg: Cfg, r: Request, d: Duty) {
    && SigsComplete(cfg, r.claimTxids, r.graphSigs)
    && r.rootNonces.Keys == cfg.table.Keys()
    && (d.PublishRootSignature? ==> d.aggNonce == Sum(r.rootNonces))
    && (d.PublishDeposit? ==>
          && d.aggNonce == Sum(r.rootNonces)
          && OnePerOperator(cfg, r.rootPartials, d.partials))
  }

  lemma RootNonceCovers(cfg: Cfg, env: Env, r: Request, pog: map<Txid, Graph>, duties: seq<Duty>, ev: Event, d: Duty)
    requires CfgOk(cfg, env) && RequestOk(cfg, env, r, pog, duties) && ev.RootNonce?
    requires ev.signer in cfg.table.Keys() && (ev.signer == cfg.table.PovKey() ==> Asked(duties))
    requires d in AddRootNonce(cfg, r, ev).1
    ensures d.PublishRootSignature? && DepositCovered(cfg, AddRootNonce(cfg, r, ev).0, d)
  {
    hide InputsOk, CacheOk, SessionsOk, Fresh, Complete, SigsComplete, Asked, Signed, Sum, InTableOrder;
    hide GraphsWellFormed, VerifiedPartialsAggregate, Owns;
    var r' := AddRootNonce(cfg, r, ev).0;
    EveryoneContributed(cfg, r'.rootNonces);
    TableOrderSum(cfg, r'.rootNonces);
  }

  lemma RootPart(cfg: Cfg, env: Env, r: Request, pog: map<Txid, Graph>, duties: seq<Duty>)
    requires RequestOk(cfg, env, r, pog, duties)
    ensures RootOk(cfg, r, duties)
  {
    hide InputsOk, CacheOk, SessionsOk, Fresh, Complete, RootOk;
  }

  lemma TableListing(cfg: Cfg, contributions: map<OpKey, nat>)
    requires cfg.table.Valid() && contributions.Keys <= cfg.table.Keys() && |contributions| == cfg.table.Size()
    ensures OnePerOperator(cfg, contributions, InTableOrder(cfg.table.operators, contributions))
    ensures cfg.table.PovKey() in contributions
  {
    hide InTableOrder;
    EveryoneContributed(cfg, contributions);
    forall o | o in cfg.table.operators ensures o.p2pKey in contributions { assert o.p2pKey in cfg.table.Keys(); }
    TableOrderIsComplete(cfg.table.operators, contributions);
  }

  lemma RootSigCovers(cfg: Cfg, env: Env, r: Request, pog: map<Txid, Graph>, duties: seq<Duty>, ev: Event, d: Duty)
    requires CfgOk(cfg, env) && RequestOk(cfg, env, r, pog, duties) && ev.RootSig?
    requires AddRootPartial(cfg, r, ev).1.Ok? && d in AddRootPartial(cfg, r, ev).1.duties
    ensures d.PublishDeposit? && DepositCovered(cfg, AddRootPartial(cfg, r, ev).0, d)
  {
    hide RequestOk, Complete, SigsComplete, Asked, Signed, Sum, InTableOrder, GraphsWellFormed;
    hide VerifiedPartialsAggregate;
    hide OnePerOperator;
    RootPart(cfg, env, r, pog, duties);
    TableListing(cfg, AddRootPartial(cfg, r, ev).0.rootPartials);
    assert r.rootNonces.Keys == cfg.table.Keys() by {
      EveryoneContributed(cfg, AddRootPartial(cfg, r, ev).0.rootPartials);
    }
  }

  predicate SignsDeposit(d: Duty) {
    d.PublishRootSignature? || d.PublishDeposit?
  }

  lemma {:induction false} SigningDutiesOnlyGraphs(cfg: Cfg, r: Request, pog: map<Txid, Graph>, ops: seq<OpKey>)
    requires forall op | op in ops :: op in r.claimTxids
    ensures var duties := SigningDuties(cfg, r, pog, ops).1;
      duties.Some? ==> forall d | d in duties.value :: d.PublishGraphSignatures?
    decreases |ops|
  {
    hide Owners, LastOwner;
    if ops != [] { SigningDutiesOnlyGraphs(cfg, r, pog, ops[..|ops| - 1]); }
  }

  lemma NoncesAskSignatures(cfg: Cfg, r: Request, pog: map<Txid, Graph>, ev: Event)
    requires ev.GraphNonces? && AddNonces(cfg, r, pog, ev).2.Ok?
    ensures forall d | d in AddNonces(cfg, r, pog, ev).2.duties :: d.PublishGraphSignatures?
  {
    hide SessionsFull, Sorted, AggregateNonces, Owners, LastOwner;
    if ev.claim in r.graphNonces {
      var r2 := WithAggNonces(WithNonces(r, ev));
      var ops := Sorted(r2.claimTxids.Keys);
      SigningDutiesOnlyGraphs(cfg, r2, pog, ops);
      var more := SigningDuties(cfg, r2, pog, ops).1;
      var outcome := AddNonces(cfg, r, pog, ev).2;
      assert more.Some? ==> forall d | d in more.value :: d.PublishGraphSignatures?;
      assert outcome.duties == [] || (more.Some? && outcome.duties == more.value);
    }
  }

  lemma PartialsAskRootNonce(cfg: Cfg, r: Request, pog: map<Txid, Graph>, ev: Event)
    requires ev.GraphSigs? && AddPartials(cfg, r, pog, ev).1.Ok?
    ensures forall d | d in AddPartials(cfg, r, pog, ev).1.duties :: d.PublishRootNonce?
  {
    hide CanAggregate, ByClaim, SessionsFull, Sorted;
  }

  lemma SetupAsksNonces(cfg: Cfg, r: Request, pog: map<Txid, Graph>, ev: Event)
    requires ev.DepositSetup?
    ensures forall d | d in Setup(cfg, r, pog, ev).2 :: d.PublishGraphNonces?
  {
    hide SetupCache, SetupGraphs, Install, Sorted;
  }

  lemma ChainSignsNothing(cfg: Cfg, m: Machine, ev: Event)
    requires !IsMessage(ev) && Step(cfg, m, ev).1.Ok?
    ensures forall d | d in Step(cfg, m, ev).1.duties :: !SignsDeposit(d)
  {
  }

  /** Only root messages produce the two duties, and only when the deposit is covered. */
  lemma SigningStepCovered(cfg: Cfg, env: Env, t: Trace, ev: Event, d: Duty)
    requires CfgOk(cfg, env) && Inv(cfg, env, t.m, t.duties) && Admissible(cfg, env, t, ev)
    requires Step(cfg, t.m, ev).1.Ok? && d in Step(cfg, t.m, ev).1.duties && SignsDeposit(d)
    ensures var s' := Step(cfg, t.m, ev).0.state; s'.Requested? && DepositCovered(cfg, s'.r, d)
  {
    hide CfgOk, RequestOk, LifeOk, Setup, AddNonces, AddPartials, AddRootNonce, AddRootPartial, SigsComplete, Asked;
    hide DepositCovered;
    if !IsMessage(ev) {
      ChainSignsNothing(cfg, t.m, ev);
    } else {
      var r := t.m.state.r;
      match ev
      case DepositSetup(_, _, _, _, _) => SetupAsksNonces(cfg, r, t.m.pog, ev);
      case GraphNonces(_, _, _) => NoncesAskSignatures(cfg, r, t.m.pog, ev);
      case GraphSigs(_, _, _) => PartialsAskRootNonce(cfg, r, t.m.pog, ev);
      case AggregatedSigs(_) =>
      case RootNonce(_, _) => RootNonceCovers(cfg, env, r, t.m.pog, t.duties, ev, d);
      case RootSig(_, _) => RootSigCovers(cfg, env, r, t.m.pog, t.duties, ev, d);
    }
  }

  /** Every operator's claim has a signature adding up verified contributions of all operators. */
  ghost predicate EveryGraphSigned(cfg: Cfg, env: Env, r: Request) {
    && r.inputs.Keys == cfg.table.Keys()
    && forall op | op in r.inputs ::
         var claim := ClaimOf(cfg, r.inputs[op]);
         && op in r.claimTxids && r.claimTxids[op] == claim
         && claim in r.graphSigs && Genuine(cfg, env, r.inputs[op], r.graphSigs[claim])
  }

  lemma CoveredMeansSigned(cfg: Cfg, env: Env, r: Request, pog: map<Txid, Graph>, duties: seq<Duty>)
    requires cfg.table.Valid() && RequestOk(cfg, env, r, pog, duties) && r.rootNonces.Keys == cfg.table.Keys()
    ensures EveryGraphSigned(cfg, env, r)
  {
    hide InputsOk, CacheOk, Fresh, NoncesOk, PartialsOk, Sum, AllNonces, Asked, Signed, Genuine;
    KeyFacts(cfg.table);
    forall op | op in r.inputs
      ensures var claim := ClaimOf(cfg, r.inputs[op]);
        && op in r.claimTxids && r.claimTxids[op] == claim
        && claim in r.graphSigs && Genuine(cfg, env, r.inputs[op], r.graphSigs[claim])
    {
      assert ClaimOpen(cfg, r, op) && SigOk(cfg, env, r, op);
    }
  }

  /** Over every run: the deposit is signed or published only when every operator's claim has its aggregate
      signature, with the nonces of all operators and, for publishing, one signature per operator in table order. */
  lemma DepositSignedOnlyWhenCovered(cfg: Cfg, env: Env, height: Height, deadline: Height, evs: seq<Event>, ev: Event,
      d: Duty)
    requires CfgOk(cfg, env) && AdmissibleRun(cfg, env, height, deadline, evs)
    requires var t := Exec(cfg, height, deadline, evs);
      Admissible(cfg, env, t, ev) && Step(cfg, t.m, ev).1.Ok? && d in Step(cfg, t.m, ev).1.duties && SignsDeposit(d)
    ensures var s' := Step(cfg, Exec(cfg, height, deadline, evs).m, ev).0.state;
      s'.Requested? && EveryGraphSigned(cfg, env, s'.r) && DepositCovered(cfg, s'.r, d)
  {
    hide RequestOk, LifeOk, Admissible, Exec, Step, AdmissibleRun, SigsComplete, OnePerOperator, EveryGraphSigned, Sum;
    hide GraphsWellFormed, VerifiedPartialsAggregate;
    var t := Exec(cfg, height, deadline, evs);
    ReachableInvariant(cfg, env, height, deadline, evs);
    SigningStepCovered(cfg, env, t, ev, d);
    StepGood(cfg, env, t, ev);
    var m' := Step(cfg, t.m, ev).0;
    CoveredMeansSigned(cfg, env, m'.state.r, m'.pog, Next(cfg, t, ev).duties);
  }

  // ---------- complete setups and deposit confirmation ----------

  /** In every reachable state with all setups in: claims are injective, in step with inputs and summaries,
      and graphs looked up for stored inputs are the ones that built them. */
  lemma CompleteSetupInStep(cfg: Cfg, env: Env, height: Height, deadline: Height, evs: seq<Event>)
    requires CfgOk(cfg, env) && AdmissibleRun(cfg, env, height, deadline, evs)
    requires var s := Exec(cfg, height, deadline, evs).m.state; s.Requested? && |s.r.inputs| == cfg.table.Size()
    ensures var m := Exec(cfg, height, deadline, evs).m; var r := m.state.r;
      && CanConfirm(r)
      && r.inputs.Keys == r.claimTxids.Keys == cfg.table.Keys()
      && forall op | op in r.inputs ::
           && Cached(cfg, m.pog, r.inputs[op]) == cfg.buildGraph(r.inputs[op])
           && r.claimTxids[op] == ClaimOf(cfg, r.inputs[op])
           && r.summaries[r.claimTxids[op]] == cfg.buildGraph(r.inputs[op]).summary
  {
    hide CfgOk, InputsOk, CacheOk, SessionsOk, RootOk, Fresh, Exec, AdmissibleRun, CanConfirm, Cached, ClaimOpen;
    ReachableInvariant(cfg, env, height, deadline, evs);
    var m := Exec(cfg, height, deadline, evs).m;
    ConfirmableWhenComplete(cfg, env, m.state.r);
    forall op | op in m.state.r.inputs
      ensures var r := m.state.r;
        && Cached(cfg, m.pog, r.inputs[op]) == cfg.buildGraph(r.inputs[op])
        && r.claimTxids[op] == ClaimOf(cfg, r.inputs[op])
        && r.claimTxids[op] in r.summaries
        && r.summaries[r.claimTxids[op]] == cfg.buildGraph(r.inputs[op]).summary
    {
      CachedIsRebuilt(cfg, env.owner, m.state.r.inputs, m.pog, op);
      OpenClaim(cfg, m.state.r, op);
    }
  }

  lemma OpenClaim(cfg: Cfg, r: Request, op: OpKey)
    requires Complete(cfg, r) && op in r.inputs
    ensures op in r.claimTxids && r.claimTxids[op] == ClaimOf(cfg, r.inputs[op])
    ensures r.claimTxids[op] in r.summaries && r.summaries[r.claimTxids[op]] == cfg.buildGraph(r.inputs[op]).summary
  {
    assert ClaimOpen(cfg, r, op);
  }

  /** Confirming the deposit in any reachable state pairs each claim with its own input and summary. */
  lemma DepositConfirmationPairs(cfg: Cfg, env: Env, height: Height, deadline: Height, evs: seq<Event>, tx: Tx)
    requires CfgOk(cfg, env) && AdmissibleRun(cfg, env, height, deadline, evs)
    requires var t := Exec(cfg, height, deadline, evs);
      t.m.state.Requested? && tx.txid == cfg.depositTxid && Admissible(cfg, env, t, DepositConfirmation(tx))
    ensures var m := Exec(cfg, height, deadline, evs).m; var r := m.state.r;
            var (m', outcome) := ProcessDepositConfirmation(cfg, m, tx);
      && outcome == Ok([]) && m'.state.Deposited? && m'.blockHeight == m.blockHeight && m'.pog == map[]
      && m'.state.g.claimTxids == r.claimTxids && m'.state.g.graphSigs == r.graphSigs
      && r.claimTxids.Keys == r.inputs.Keys == cfg.table.Keys()
      && (forall op | op in r.inputs ::
            && r.claimTxids[op] in m'.state.g.pegOutGraphs && r.claimTxids[op] in m'.state.g.graphSigs
            && m'.state.g.pegOutGraphs[r.claimTxids[op]] == (r.inputs[op], cfg.buildGraph(r.inputs[op]).summary))
      && (forall claim | claim in m'.state.g.pegOutGraphs :: exists op ::
        op in r.claimTxids && r.claimTxids[op] == claim)
  {
    hide InputsOk, CacheOk, SessionsOk, Fresh, Exec, AdmissibleRun, CanConfirm, Complete, Asked, Signed;
    hide GraphsWellFormed, VerifiedPartialsAggregate;
    ReachableInvariant(cfg, env, height, deadline, evs);
    var t := Exec(cfg, height, deadline, evs);
    var r := t.m.state.r;
    KeyFacts(cfg.table);
    ClaimsMeanComplete(cfg, env, r, t.m.pog, t.duties);
    ConfirmableWhenComplete(cfg, env, r);
    InputsAreClaims(cfg, r);
    forall op | op in r.inputs
      ensures r.claimTxids[op] in PairGraphs(r)
              && PairGraphs(r)[r.claimTxids[op]] == (r.inputs[op], cfg.buildGraph(r.inputs[op]).summary)
    {
      ClaimPaired(cfg, r, op);
    }
  }

  // ---------- assert-data over runs ----------

  lemma {:induction false} ExecIsRun(cfg: Cfg, height: Height, deadline: Height, evs: seq<Event>)
    ensures Exec(cfg, height, deadline, evs).m == Run(cfg, InitialState(cfg, height, deadline), evs)
    decreases |evs|
  {
    hide Step, InitialState;
    if evs != [] { ExecIsRun(cfg, height, deadline, evs[..|evs| - 1]); }
  }

  /** In any order and with repeats: while the contract waits, some assert-data transaction has not been confirmed
      since its pre-assert; once it has moved on, every one has. */
  lemma AssertDataPigeonhole(cfg: Cfg, env: Env, height: Height, deadline: Height, evs: seq<Event>) returns (w: Story)
    requires CfgOk(cfg, env) && AdmissibleRun(cfg, env, height, deadline, evs)
    ensures var s := Exec(cfg, height, deadline, evs).m.state;
      && (s.PreAssertConfirmed? || s.AssertDataConfirmed? ==> PreAsserted(s.active.1, evs, w))
      && (s.PreAssertConfirmed? ==>
            exists t :: t in s.active.1.assertDataTxids && !ConfirmedWithin(evs, w.preAssert, |evs|, t))
      && (s.AssertDataConfirmed? ==>
            && AllSigned(s.active.1.assertDataTxids, s.signedAsserts)
            && forall t | t in s.active.1.assertDataTxids :: ConfirmedWithin(evs, w.preAssert, |evs|, t))
  {
    hide RequestOk, GraphsOk, ActiveOk, VerifiedPartialsAggregate, Exec, Run, AdmissibleRun, PreAsserted;
    hide ConfirmedWithin;
    hide GraphsWellFormed;
    ReachableInvariant(cfg, env, height, deadline, evs);
    ExecIsRun(cfg, height, deadline, evs);
    w := EveryRunTells(cfg, height, deadline, evs);
    var s := Exec(cfg, height, deadline, evs).m.state;
    if s.PreAssertConfirmed? {
      ActiveAsserts(cfg, s);
      var all := Elems(s.active.1.assertDataTxids);
      assert s.signedAsserts.Keys != all;
      var t :| t in all && t !in s.signedAsserts;
      assert !ConfirmedWithin(evs, w.preAssert, |evs|, t);
    }
  }
}
