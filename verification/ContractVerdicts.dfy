/** Which events a contract refuses, in every reachable state. */
module ContractVerdicts {
  import opened Collections
  import opened ContractTypes
  import opened ContractSpec
  import opened ContractCache
  import opened ContractInvariant
  import opened ContractSigning
  import opened ContractRuns
  import opened ContractHistory
  import opened ContractOwed
  import opened ContractAsked

  /** The confirmed transaction is one the contract waits for; an assigned contract looks at every transaction. */
  ghost predicate Awaited(cfg: Cfg, s: ContractState, tx: Tx) {
    match s
    case Assigned(_, _, _, _, _, _, _) => true
    case Fulfilled(_, _, _, _, _, _, _) => tx.txid == s.active.1.claimTxid && cfg.parseClaim(tx).Some?
    case Claimed(_, _, _, _, _, _, _, _) =>
      || IsChallenge(s.active.1.claimTxid, tx) || tx.txid == s.active.1.payoutOptimisticTxid
      || tx.txid == s.active.1.preAssertTxid
    case Challenged(_, _, _, _, _, _, _, _) => tx.txid == s.active.1.preAssertTxid
    case PreAssertConfirmed(_, _, _, _, _, _, _, _, _) => tx.txid in s.active.1.assertDataTxids
    case AssertDataConfirmed(_, _, _, _, _, _, _) => tx.txid == s.active.1.postAssertTxid && FiledProofParses(cfg, s)
    case Asserted(_, _, _, _, _, _, _, _) =>
      IsDisprove(s.active.1.postAssertTxid, tx) || tx.txid == s.active.1.payoutTxid
    case _ => false
  }

  /** The message makes sense in the signing phase: of a packed graph's length and about a known claim; signatures
      that can be checked verify; a deposit signature comes from an operator with a nonce. */
  ghost predicate MakesSense(cfg: Cfg, env: Env, r: Request, ev: Event) {
    match ev
    case GraphNonces(_, claim, nonces) => Unpacks(nonces) && claim in r.graphNonces
    case GraphSigs(signer, claim, partials) =>
      && Unpacks(partials) && claim in r.graphPartials
      && (|| signer in r.graphPartials[claim]
          || (claim in r.graphNonces && r.graphNonces[claim].Keys != cfg.table.Keys())
          || SignaturesTaken(cfg, env, r, ev))
    case RootSig(signer, _) => signer in r.rootPartials || (signer in cfg.table.Keys() && signer in r.rootNonces)
    case _ => true
  }

  /** What a contract has a use for. */
  ghost predicate Welcome(cfg: Cfg, env: Env, m: Machine, ev: Event) {
    if IsMessage(ev) then
      if m.state.Requested? then MakesSense(cfg, env, m.state.r, ev)
      else (ev.DepositSetup? && m.state.Aborted?) || ((ev.RootNonce? || ev.RootSig?) && m.state.Deposited?)
    else
      match ev
      case Block(height) => height == m.blockHeight + 1
      case Assignment(_, _, _) => Assigns(cfg, ev)
      case DepositConfirmation(tx) => m.state.Requested? && tx.txid == cfg.depositTxid
      case PegOutGraphConfirmation(tx, _) => Awaited(cfg, m.state, tx)
      case ClaimFailure => m.state.Claimed?
      case AssertionFailure => m.state.Asserted?
  }

  lemma AssignmentVerdict(cfg: Cfg, s: ContractState, ev: Event)
    requires ev.Assignment? && (!s.Requested? ==> LifeOk(cfg, s))
    ensures ProcessAssignment(cfg, s, ev).1.Rejected? <==> !Assigns(cfg, ev)
    ensures !ProcessAssignment(cfg, s, ev).1.Panic?
  {
    hide FindIdx, AssertsOk;
    if ev.entry.dispatched.Some? {
      var idx := ev.entry.dispatched.value.assignee;
      if cfg.table.KeyOfIdx(idx).Some? {
        KeyIsInTable(cfg.table, idx);
        if HasGraphs(s) { assert GraphPaired(cfg, s.g, s.g.claimTxids[cfg.table.KeyOfIdx(idx).value]); }
      }
    }
  }

  lemma BlockVerdict(cfg: Cfg, m: Machine, height: Height)
    requires !m.state.Requested? ==> LifeOk(cfg, m.state)
    ensures ProcessBlock(cfg, m, height).1.Rejected? <==> height != m.blockHeight + 1
  {
    hide LifeOk, BlockDuty;
    if !m.state.Requested? { BlockGood(cfg, m.state, height); } else { NoDutyYet(cfg, m.state, height); }
  }

  lemma NoDutyYet(cfg: Cfg, s: ContractState, height: Height)
    requires s.Requested?
    ensures BlockDuty(cfg, s, height) == Ok([])
  {
  }

  lemma ConfirmVerdict(cfg: Cfg, s: ContractState, tx: Tx, height: Height)
    requires GraphsWellFormed(cfg) && (!s.Requested? ==> LifeOk(cfg, s)) && !Confirm(cfg, s, tx, height).1.Panic?
    ensures Confirm(cfg, s, tx, height).1.Rejected? <==> !Awaited(cfg, s, tx)
  {
    hide GraphsWellFormed, IsChallenge, IsDisprove, FiledProofParses, GraphsOk, ActiveOk, ConfirmPostAssert;
    if s.PreAssertConfirmed? {
      ActiveSigned(cfg, s);
    } else if s.AssertDataConfirmed? {
      PostAssertVerdict(cfg, s, tx, height);
    }
  }

  lemma PostAssertVerdict(cfg: Cfg, s: ContractState, tx: Tx, height: Height)
    requires s.AssertDataConfirmed? && LifeOk(cfg, s) && GraphsWellFormed(cfg)
    ensures ConfirmPostAssert(cfg, s, tx, height).1.Rejected?
       <==> !(tx.txid == s.active.1.postAssertTxid && FiledProofParses(cfg, s))
  {
    hide GraphsOk, ActiveOk, GraphsWellFormed, FiledProofParses;
    ActiveAsserts(cfg, s);
    var ids := s.active.1.assertDataTxids;
    assert |s.signedAsserts| == |s.signedAsserts.Keys|;
    assert forall t | t in ids :: t in Elems(ids);
    assert AllSigned(ids, s.signedAsserts);
    TheFiledBatch(cfg, s);
  }

  lemma PartialsVerdict(cfg: Cfg, env: Env, r: Request, pog: map<Txid, Graph>, duties: seq<Duty>, ev: Event)
    requires CfgOk(cfg, env) && RequestOk(cfg, env, r, pog, duties) && ev.GraphSigs? && ev.signer in cfg.table.Keys()
    ensures AddPartials(cfg, r, pog, ev).1.Rejected? <==> !MakesSense(cfg, env, r, ev)
  {
    hide CfgOk, RequestOk, Complete, SessionsFull, AggregateAll, WithPartials, Unpacks, Owners, FirstSignatures;
    hide VerifyPartials;
    if Unpacks(ev.partials) && ev.claim in r.graphPartials && ev.signer !in r.graphPartials[ev.claim] {
      PartsOf(cfg, env, r, pog, duties);
      SessionMeansComplete(cfg, env, r, pog, duties, ev.claim);
      var op := OwnerFound(cfg, env, r, pog, ev.claim);
      VerdictMeans(cfg, env, r, pog, duties, ev, op);
      VerdictKind(cfg, env, r, pog, duties, ev, cfg.buildGraph(r.inputs[op]));
      forall o | FirstSignatures(cfg, env, r, ev, o) ensures o == op { SoleSigner(cfg, env, r, ev, op, o); }
      if FirstSignatures(cfg, env, r, ev, op) {
        FirstNeedsNonces(cfg, env, r, ev, op);
        AcceptedGood(cfg, env, r, pog, duties, ev, op);
        var r' := WithPartials(r, ev);
        if SessionsFull(r'.claimTxids, r'.graphPartials, cfg.table.Size()) {
          AggregationGood(cfg, env, r', pog, duties);
        }
      }
    }
  }

  lemma FirstNeedsNonces(cfg: Cfg, env: Env, r: Request, ev: Event, op: OpKey)
    requires ev.GraphSigs? && FirstSignatures(cfg, env, r, ev, op)
    ensures ev.claim in r.graphNonces && r.graphNonces[ev.claim].Keys == cfg.table.Keys()
  {
    hide Sum, AllNonces, Unpacks;
  }

  /** A negative verdict waits for nonces while some are missing and refuses otherwise. */
  lemma VerdictKind(cfg: Cfg, env: Env, r: Request, pog: map<Txid, Graph>, duties: seq<Duty>, ev: Event, graph: Graph)
    requires CfgOk(cfg, env) && RequestOk(cfg, env, r, pog, duties) && ev.GraphSigs? && ev.signer in cfg.table.Keys()
    requires ev.claim in r.graphNonces
    ensures var verdict := VerifyPartials(cfg, r, ev, graph);
      verdict.Some? && !verdict.value.Panic? ==>
        (verdict.value.Rejected? <==> r.graphNonces[ev.claim].Keys == cfg.table.Keys())
  {
    hide InputsOk, CacheOk, RootOk, Fresh, Complete, PartialsOk, SigOk, Sum, GraphsWellFormed;
    hide VerifiedPartialsAggregate;
    KeyFacts(cfg.table);
    var session := r.graphNonces[ev.claim];
    assert NoncesOk(cfg, env, ev.claim, session);
    assert |session| == |session.Keys|;
    if |session| == cfg.table.Size() { SubsetOfSameSize(session.Keys, cfg.table.Keys()); }
  }

  lemma MessageVerdict(cfg: Cfg, env: Env, t: Trace, ev: Event)
    requires CfgOk(cfg, env) && t.m.state.Requested? && RequestOk(cfg, env, t.m.state.r, t.m.pog, t.duties)
    requires IsMessage(ev) && Admissible(cfg, env, t, ev)
    ensures Step(cfg, t.m, ev).1.Rejected? <==> !MakesSense(cfg, env, t.m.state.r, ev)
  {
    hide CfgOk, RequestOk, Setup, AddNonces, AddPartials, AddRootNonce, Sum, InTableOrder, SignaturesTaken, Unpacks;
    hide Asked;
    var r := t.m.state.r;
    match ev
    case GraphNonces(_, _, _) => NoncesAreAnswered(cfg, env, r, t.m.pog, t.duties, ev);
    case GraphSigs(_, _, _) => PartialsVerdict(cfg, env, r, t.m.pog, t.duties, ev);
    case _ =>
  }

  /** In every reachable state an admissible event is refused if and only if the contract has no use for it. */
  lemma RefusedIffUnwelcome(cfg: Cfg, env: Env, height: Height, deadline: Height, evs: seq<Event>, ev: Event)
    requires CfgOk(cfg, env) && AdmissibleRun(cfg, env, height, deadline, evs)
    requires Admissible(cfg, env, Exec(cfg, height, deadline, evs), ev)
    ensures var m := Exec(cfg, height, deadline, evs).m;
      Step(cfg, m, ev).1.Rejected? <==> !Welcome(cfg, env, m, ev)
  {
    hide RequestOk, LifeOk, Exec, AdmissibleRun, ProcessBlock, Confirm, ProcessAssignment, Admissible;
    hide GraphsWellFormed, VerifiedPartialsAggregate, CanConfirm, PairGraphs, Awaited, MakesSense, Assigns;
    ReachableInvariant(cfg, env, height, deadline, evs);
    NeverPanics(cfg, env, height, deadline, evs, ev);
    var t := Exec(cfg, height, deadline, evs);
    if IsMessage(ev) {
      if t.m.state.Requested? { MessageVerdict(cfg, env, t, ev); } else { LateMessage(cfg, t.m, ev); }
    } else {
      match ev
      case Block(h) => BlockVerdict(cfg, t.m, h);
      case Assignment(_, _, _) => AssignmentVerdict(cfg, t.m.state, ev);
      case PegOutGraphConfirmation(tx, h) => ConfirmVerdict(cfg, t.m.state, tx, h);
      case _ =>
    }
  }

  lemma LateMessage(cfg: Cfg, m: Machine, ev: Event)
    requires IsMessage(ev) && !m.state.Requested?
    ensures Step(cfg, m, ev).1.Rejected? <==>
      !((ev.DepositSetup? && m.state.Aborted?) || ((ev.RootNonce? || ev.RootSig?) && m.state.Deposited?))
  {
    hide Setup, AddNonces, AddPartials, AddRootNonce, AddRootPartial;
  }
}
