/** Which duties a node is given, for whose graph and when. */
module ContractDuties {
  import opened Collections
  import opened ContractTypes
  import opened ContractSpec
  import opened ContractCache
  import opened ContractInvariant
  import opened ContractSafety
  import opened ContractSigning
  import opened ContractRuns

  // ---------- asking for nonces ----------

  /** The setup that completes the set asks for nonces once per operator, for that operator's own graph. */
  lemma SetupAsksForEveryGraph(cfg: Cfg, env: Env, r: Request, pog: map<Txid, Graph>, duties: seq<Duty>, ev: Event)
    requires CfgOk(cfg, env) && RequestOk(cfg, env, r, pog, duties)
    requires ev.DepositSetup? && ev.op in cfg.table.Keys() && ev.op in env.stake && ev.stakeTxid == env.stake[ev.op]
    ensures var (r', _, more) := Setup(cfg, r, pog, ev);
      if |r'.inputs| != cfg.table.Size() then more == []
      else
        var ops := Sorted(cfg.table.Keys());
        && r'.inputs.Keys == cfg.table.Keys() && |more| == |ops|
        && forall i | 0 <= i < |ops| ::
             && ops[i] in r'.inputs
             && more[i] == PublishGraphNonces(cfg.buildGraph(r'.inputs[ops[i]]).summary.claimTxid,
               cfg.buildGraph(r'.inputs[ops[i]]))
  {
    hide Install, SetupCache, SetupGraphs, CacheOk, CfgOk, SessionsOk, Fresh, Complete, InputsOk, WithInput, RootOk;
    hide NonceDuties, RebuiltGraphs, Sorted, Lists;
    var r1 := r.(inputs := WithInput(r.inputs, ev));
    CacheKeepsInput(cfg, env, r.inputs, pog, ev);
    InputStored(cfg, env, r, duties, ev);
    SetupGraphsRebuilt(cfg, env.owner, pog, r1.inputs);
    InstallFrame(r1, RebuiltGraphs(cfg, r1.inputs));
    if |r1.inputs| == cfg.table.Size() {
      InputsFull(cfg, env, r1.inputs);
      NonceDutiesListed(cfg, r1.inputs);
    }
  }

  lemma NonceDutiesListed(cfg: Cfg, inputs: map<OpKey, GraphInput>)
    ensures var more := NonceDuties(RebuiltGraphs(cfg, inputs)); var ops := Sorted(inputs.Keys);
      && |more| == |ops|
      && forall i | 0 <= i < |ops| ::
           && ops[i] in inputs
           && more[i] == PublishGraphNonces(cfg.buildGraph(inputs[ops[i]]).summary.claimTxid,
             cfg.buildGraph(inputs[ops[i]]))
  {
    var ops := Sorted(inputs.Keys);
    assert RebuiltGraphs(cfg, inputs).Keys == inputs.Keys;
    assert forall i | 0 <= i < |ops| :: ops[i] in ops;
  }

  // ---------- publishing peg-out transactions ----------

  predicate PublishesOwnGraph(d: Duty) {
    || d.PublishClaim? || d.PublishPayoutOptimistic? || d.PublishPreAssert? || d.PublishAssertData?
    || d.PublishPostAssertData? || d.PublishPayout?
  }

  /** This node's own graph, as paired when the deposit confirmed. */
  ghost predicate IsOwnGraph(cfg: Cfg, g: Graphs, graph: (GraphInput, Summary)) {
    var key := cfg.table.KeyOfIdx(cfg.table.pov);
    && key.Some? && key.value in g.claimTxids && g.claimTxids[key.value] in g.pegOutGraphs
    && graph == g.pegOutGraphs[g.claimTxids[key.value]]
    && graph.1 == cfg.buildGraph(graph.0).summary && graph.1.claimTxid == g.claimTxids[key.value]
  }

  /** The aggregate signature of a graph's own claim. */
  ghost predicate SignedBy(g: Graphs, graph: (GraphInput, Summary), sig: GraphSig) {
    graph.1.claimTxid in g.graphSigs && sig == g.graphSigs[graph.1.claimTxid]
  }

  /** A duty to publish concerns this node's own graph, carries its own txids and signature, and comes in the right
      state, after the timelock where there is one. */
  ghost predicate OwnAndTimely(cfg: Cfg, m: Machine, m': Machine, d: Duty) {
    && HasActive(m.state) && m.state.fulfiller == cfg.table.pov && IsOwnGraph(cfg, m.state.g, m.state.active)
    && var graph := m.state.active;
       match d
       case PublishClaim(fulfillmentTxid, stakeTxid) =>
         m'.state.Fulfilled? && fulfillmentTxid == m'.state.fulfillmentTxid && stakeTxid == graph.1.stakeTxid
       case PublishPayoutOptimistic(claimTxid, stakeTxid, sig) =>
         && m.state.Claimed? && claimTxid == graph.1.claimTxid && stakeTxid == graph.1.stakeTxid
           && SignedBy(m.state.g, graph, sig)
         && m'.blockHeight >= m.state.claimHeight + cfg.payoutOptimisticTimelock
       case PublishPreAssert(claimTxid, sig) =>
         && m.state.Challenged? && claimTxid == graph.1.claimTxid && SignedBy(m.state.g, graph, sig)
         && m'.blockHeight >= m.state.claimHeight + cfg.preAssertTimelock
       case PublishAssertData(fulfillmentTxid, startHeight, preAssertTxid, scripts) =>
         && (m.state.Claimed? || m.state.Challenged?) && m'.state.PreAssertConfirmed?
         && fulfillmentTxid == m.state.fulfillmentTxid && startHeight == m.state.l1StartHeight
         && preAssertTxid == graph.1.preAssertTxid && |scripts| == NUM_ASSERT_DATA_TX
       case PublishPostAssertData(assertDataTxids, sig) =>
         m'.state.AssertDataConfirmed? && assertDataTxids == graph.1.assertDataTxids && SignedBy(m.state.g, graph, sig)
       case PublishPayout(postAssertTxid, claimTxid, stakeTxid, sig) =>
         && m.state.Asserted? && postAssertTxid == graph.1.postAssertTxid && claimTxid == graph.1.claimTxid
         && stakeTxid == graph.0.stakeTxid && SignedBy(m.state.g, graph, sig)
         && m'.blockHeight >= m.state.postAssertHeight + cfg.payoutTimelock
       case _ => true
  }

  lemma ActiveIsOwn(cfg: Cfg, s: ContractState)
    requires LifeOk(cfg, s) && HasActive(s) && s.fulfiller == cfg.table.pov
    ensures IsOwnGraph(cfg, s.g, s.active) && s.active.1.claimTxid in s.g.graphSigs
  {
    hide AssertsOk;
    ActiveSigned(cfg, s);
    var key := cfg.table.KeyOfIdx(s.fulfiller).value;
    assert GraphPaired(cfg, s.g, s.g.claimTxids[key]);
  }

  lemma MessagesPublishNothing(cfg: Cfg, m: Machine, ev: Event, d: Duty)
    requires IsMessage(ev) && Step(cfg, m, ev).1.Ok? && d in Step(cfg, m, ev).1.duties
    ensures !PublishesOwnGraph(d)
  {
    hide Setup, AddNonces, AddPartials, Sum, InTableOrder;
    if m.state.Requested? {
      var r := m.state.r;
      match ev
      case DepositSetup(_, _, _, _, _) => SetupAsksNonces(cfg, r, m.pog, ev);
      case GraphNonces(_, _, _) => NoncesAskSignatures(cfg, r, m.pog, ev);
      case GraphSigs(_, _, _) => PartialsAskRootNonce(cfg, r, m.pog, ev);
      case _ =>
    }
  }

  lemma BlockDutiesAreOwn(cfg: Cfg, m: Machine, height: Height, d: Duty)
    requires !m.state.Requested? && LifeOk(cfg, m.state)
    requires ProcessBlock(cfg, m, height).1.Ok? && d in ProcessBlock(cfg, m, height).1.duties && PublishesOwnGraph(d)
    ensures OwnAndTimely(cfg, m, ProcessBlock(cfg, m, height).0, d)
  {
    hide LifeOk, IsOwnGraph;
    ActiveIsOwn(cfg, m.state);
  }

  lemma ConfirmDutiesAreOwn(cfg: Cfg, m: Machine, tx: Tx, height: Height, d: Duty)
    requires !m.state.Requested? && LifeOk(cfg, m.state)
    requires var out := Confirm(cfg, m.state, tx, height).1; out.Ok? && d in out.duties && PublishesOwnGraph(d)
    ensures OwnAndTimely(cfg, m, m.(state := Confirm(cfg, m.state, tx, height).0), d)
  {
    hide LifeOk, IsOwnGraph, IsChallenge, IsDisprove, AllSigned;
    ActiveIsOwn(cfg, m.state);
  }

  lemma OtherEventsPublishNothing(cfg: Cfg, m: Machine, ev: Event, d: Duty)
    requires !IsMessage(ev) && !ev.PegOutGraphConfirmation? && (ev.Block? ==> m.state.Requested?)
    requires Step(cfg, m, ev).1.Ok? && d in Step(cfg, m, ev).1.duties
    ensures !PublishesOwnGraph(d)
  {
    hide CanConfirm, PairGraphs;
  }

  lemma RequestedPublishesNothing(cfg: Cfg, m: Machine, tx: Tx, height: Height)
    requires m.state.Requested?
    ensures Confirm(cfg, m.state, tx, height).1.Rejected?
  {
  }

  /** Over every run: the node is told to publish peg-out transactions only as the fulfiller, only from its own graph
      with the aggregate signature of its own claim, and not before the timelock. */
  lemma PublishesOnlyOwnGraph(cfg: Cfg, env: Env, height: Height, deadline: Height, evs: seq<Event>, ev: Event, d: Duty)
    requires CfgOk(cfg, env) && AdmissibleRun(cfg, env, height, deadline, evs)
    requires var m := Exec(cfg, height, deadline, evs).m;
      Step(cfg, m, ev).1.Ok? && d in Step(cfg, m, ev).1.duties && PublishesOwnGraph(d)
    ensures var m := Exec(cfg, height, deadline, evs).m; OwnAndTimely(cfg, m, Step(cfg, m, ev).0, d)
  {
    hide CfgOk, RequestOk, LifeOk, Exec, AdmissibleRun, OwnAndTimely, ProcessMessage, ProcessBlock, Confirm;
    hide ProcessAssignment;
    hide ProcessDepositConfirmation, PublishesOwnGraph;
    var m := Exec(cfg, height, deadline, evs).m;
    ReachableInvariant(cfg, env, height, deadline, evs);
    if IsMessage(ev) {
      MessagesPublishNothing(cfg, m, ev, d);
    } else if ev.Block? && !m.state.Requested? {
      BlockDutiesAreOwn(cfg, m, ev.height, d);
    } else if ev.PegOutGraphConfirmation? {
      if m.state.Requested? { RequestedPublishesNothing(cfg, m, ev.tx, ev.height); }
      else { ConfirmDutiesAreOwn(cfg, m, ev.tx, ev.height, d); }
    } else {
      OtherEventsPublishNothing(cfg, m, ev, d);
    }
  }
}
