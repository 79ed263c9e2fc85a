/** Confirmations drive a fulfilled withdrawal to its end: the converse of the story every resolution tells. */
module ContractPaths {
  import opened Collections
  import opened ContractTypes
  import opened ContractSpec
  import opened ContractCache
  import opened ContractInvariant
  import opened ContractSigning
  import opened ContractRuns

  /** Confirmations of assert-data transactions of the graph, in any order and with repeats. */
  predicate AssertsOf(graph: Summary, evs: seq<Event>) {
    forall ev | ev in evs :: ev.PegOutGraphConfirmation? && ev.tx.txid in graph.assertDataTxids
  }

  function TxidsOf(evs: seq<Event>): set<Txid> {
    set ev | ev in evs && ev.PegOutGraphConfirmation? :: ev.tx.txid
  }

  /** Every filed transaction was confirmed under the txid it is filed under. */
  ghost predicate FiledFrom(evs: seq<Event>, signed: map<Txid, Tx>) {
    && signed.Keys == TxidsOf(evs)
    && forall t | t in signed :: signed[t].txid == t && ConfirmedIn(evs, signed[t])
  }

  predicate ConfirmedIn(evs: seq<Event>, tx: Tx) {
    exists ev :: ev in evs && ev.PegOutGraphConfirmation? && ev.tx == tx
  }

  /** The state after the assert-data confirmations `evs`: still collecting, or moved on once all are in. */
  ghost predicate Collecting(start: ContractState, evs: seq<Event>, s: ContractState)
    requires start.PreAssertConfirmed?
  {
    if TxidsOf(evs) == Elems(start.active.1.assertDataTxids) then
      && s.AssertDataConfirmed? && FiledFrom(evs, s.signedAsserts)
      && s == AssertDataConfirmed(start.g, start.fulfiller, start.active, start.withdrawalRequestTxid,
                                  start.fulfillmentTxid, start.commitment, s.signedAsserts)
    else
      && s.PreAssertConfirmed? && FiledFrom(evs, s.signedAsserts)
      && s == PreAssertConfirmed(start.g, start.fulfiller, start.active, start.withdrawalRequestTxid,
                                 start.fulfillmentTxid, start.claimHeight, start.commitment, start.l1StartHeight,
                                 s.signedAsserts)
  }

  lemma TxidsGrow(evs: seq<Event>, ev: Event)
    requires ev.PegOutGraphConfirmation?
    ensures TxidsOf(evs + [ev]) == TxidsOf(evs) + {ev.tx.txid}
  {
    assert forall e :: e in evs + [ev] <==> e in evs || e == ev;
  }

  lemma FileOneMore(evs: seq<Event>, ev: Event, signed: map<Txid, Tx>)
    requires ev.PegOutGraphConfirmation? && FiledFrom(evs, signed)
    ensures FiledFrom(evs + [ev], signed[ev.tx.txid := ev.tx])
    ensures ev.tx.txid in signed ==> FiledFrom(evs + [ev], signed)
  {
    hide TxidsOf;
    TxidsGrow(evs, ev);
    assert ev in evs + [ev];
    forall t | t in signed ensures ConfirmedIn(evs + [ev], signed[t]) {
      var e :| e in evs && e.PegOutGraphConfirmation? && e.tx == signed[t];
      assert e in evs + [ev];
    }
  }

  lemma CollectStep(cfg: Cfg, start: ContractState, evs: seq<Event>, s: ContractState, ev: Event)
    requires GraphsWellFormed(cfg) && LifeOk(cfg, start) && start.PreAssertConfirmed?
    requires start.active.1.postAssertTxid !in start.active.1.assertDataTxids
    requires AssertsOf(start.active.1, evs + [ev]) && Collecting(start, evs, s)
    ensures Collecting(start, evs + [ev], Confirm(cfg, s, ev.tx, ev.height).0)
  {
    hide GraphsWellFormed, LifeOk, TxidsOf, FiledFrom;
    var ids := Elems(start.active.1.assertDataTxids);
    assert ev in evs + [ev];
    ActiveSigned(cfg, start);
    ActiveAsserts(cfg, start);
    TxidsGrow(evs, ev);
    FileOneMore(evs, ev, s.signedAsserts);
    FiledKeys(evs, s.signedAsserts);
    if s.PreAssertConfirmed? {
      var signed := s.signedAsserts[ev.tx.txid := ev.tx];
      TxidsWithin(start.active.1, evs + [ev]);
      assert signed.Keys == TxidsOf(evs + [ev]) && |signed| == |signed.Keys|;
      SubsetSize(signed.Keys, ids);
      if |signed.Keys| == |ids| { SubsetOfSameSize(signed.Keys, ids); }
    } else {
      assert TxidsOf(evs + [ev]) == ids;
    }
  }

  lemma FiledKeys(evs: seq<Event>, signed: map<Txid, Tx>)
    requires FiledFrom(evs, signed)
    ensures signed.Keys == TxidsOf(evs)
  {
  }

  lemma TxidsWithin(graph: Summary, evs: seq<Event>)
    requires AssertsOf(graph, evs)
    ensures TxidsOf(evs) <= Elems(graph.assertDataTxids)
  {
  }

  /** Assert-data confirmations in any order and with repeats file every transaction, and the contract moves on with
      the one that completes the set. */
  lemma {:induction false} AssertsCollect(cfg: Cfg, m: Machine, evs: seq<Event>)
    requires GraphsWellFormed(cfg) && LifeOk(cfg, m.state) && m.state.PreAssertConfirmed?
    requires m.state.signedAsserts == map[]
    requires m.state.active.1.postAssertTxid !in m.state.active.1.assertDataTxids && AssertsOf(m.state.active.1, evs)
    ensures Collecting(m.state, evs, Run(cfg, m, evs).state)
    decreases |evs|
  {
    hide GraphsWellFormed, LifeOk, Collecting, Confirm;
    if evs == [] {
      ActiveAsserts(cfg, m.state);
      NothingFiled(m.state);
    } else {
      var front, ev := evs[..|evs| - 1], evs[|evs| - 1];
      assert evs == front + [ev] && ev in evs;
      assert forall e | e in front :: e in evs;
      AssertsCollect(cfg, m, front);
      CollectStep(cfg, m.state, front, Run(cfg, m, front).state, ev);
    }
  }

  lemma NothingFiled(s: ContractState)
    requires s.PreAssertConfirmed? && s.signedAsserts == map[] && |Elems(s.active.1.assertDataTxids)| > 0
    ensures Collecting(s, [], s)
  {
    assert TxidsOf([]) == {};
  }

  // ---------- the contested path ----------

  /** The batch of assert-data transactions parses to a proof, whichever confirmed transactions it is made of. */
  ghost predicate ProofParses(cfg: Cfg, graph: Summary, evs: seq<Event>) {
    forall b: AssertBatch | |b.txs| == |graph.assertDataTxids|
      && forall i | 0 <= i < |b.txs| :: b.txs[i].txid == graph.assertDataTxids[i] && ConfirmedIn(evs, b.txs[i]) ::
      cfg.parseAsserts(b).Some?
  }

  /** Claim, challenge and pre-assert of the active graph. */
  predicate Opening(cfg: Cfg, graph: Summary, claim: Event, challenge: Event, preAssert: Event) {
    && claim.PegOutGraphConfirmation? && claim.tx.txid == graph.claimTxid && cfg.parseClaim(claim.tx).Some?
    && challenge.PegOutGraphConfirmation? && IsChallenge(graph.claimTxid, challenge.tx)
    && preAssert.PegOutGraphConfirmation? && preAssert.tx.txid == graph.preAssertTxid
    && |preAssert.tx.outputs| >= NUM_ASSERT_DATA_TX
  }

  lemma ConfirmOneMore(cfg: Cfg, m: Machine, evs: seq<Event>, ev: Event)
    requires ev.PegOutGraphConfirmation?
    ensures Run(cfg, m, evs + [ev]).state == Confirm(cfg, Run(cfg, m, evs).state, ev.tx, ev.height).0
  {
    hide Run, Confirm;
    RunOneMore(cfg, m, evs, ev);
  }

  lemma OpeningReaches(cfg: Cfg, m: Machine, claim: Event, challenge: Event, preAssert: Event)
    requires m.state.Fulfilled? && Opening(cfg, m.state.active.1, claim, challenge, preAssert)
    ensures var s := m.state; var s' := Run(cfg, m, [claim, challenge, preAssert]).state;
      && s'.PreAssertConfirmed? && s'.signedAsserts == map[] && s'.g == s.g && s'.fulfiller == s.fulfiller
      && s'.active == s.active && s'.withdrawalRequestTxid == s.withdrawalRequestTxid
      && s'.fulfillmentTxid == s.fulfillmentTxid
  {
    hide IsChallenge, Step;
    assert [claim, challenge, preAssert] == [claim, challenge] + [preAssert];
    ConfirmOneMore(cfg, m, [claim, challenge], preAssert);
    assert [claim, challenge] == [claim] + [challenge];
    ConfirmOneMore(cfg, m, [claim], challenge);
    assert [claim] == [] + [claim];
    ConfirmOneMore(cfg, m, [], claim);
  }

  lemma SameLife(cfg: Cfg, s: ContractState, s': ContractState)
    requires s.Fulfilled? && LifeOk(cfg, s) && s'.PreAssertConfirmed? && s'.signedAsserts == map[]
    requires s'.g == s.g && s'.fulfiller == s.fulfiller && s'.active == s.active
    ensures LifeOk(cfg, s')
  {
    hide GraphsOk, ActiveOk, Elems;
  }

  /** With all transactions filed the post-assert is accepted. */
  lemma PostAssertAccepted(cfg: Cfg, start: ContractState, evs: seq<Event>, s: ContractState, post: Event)
    requires GraphsWellFormed(cfg) && LifeOk(cfg, start) && start.PreAssertConfirmed?
    requires Collecting(start, evs, s) && TxidsOf(evs) == Elems(start.active.1.assertDataTxids)
    requires ProofParses(cfg, start.active.1, evs)
    requires post.PegOutGraphConfirmation? && post.tx.txid == start.active.1.postAssertTxid
    ensures var s' := Confirm(cfg, s, post.tx, post.height).0;
      && s'.Asserted? && s'.active == start.active && s'.withdrawalRequestTxid == start.withdrawalRequestTxid
      && s'.fulfillmentTxid == start.fulfillmentTxid
  {
    hide GraphsWellFormed, LifeOk, TxidsOf, ConfirmedIn;
    var ids := start.active.1.assertDataTxids;
    ActiveAsserts(cfg, start);
    assert |s.signedAsserts| == |s.signedAsserts.Keys|;
    assert forall t | t in ids :: t in Elems(ids);
    assert AllSigned(ids, s.signedAsserts);
    var batch := AssertBatch(Images(ids, s.signedAsserts));
    assert forall i | 0 <= i < |batch.txs| :: batch.txs[i].txid == ids[i] && ConfirmedIn(evs, batch.txs[i]);
  }

  lemma LastTransaction(cfg: Cfg, s: ContractState, last: Event)
    requires s.Asserted? && last.PegOutGraphConfirmation?
    requires IsDisprove(s.active.1.postAssertTxid, last.tx) || last.tx.txid == s.active.1.payoutTxid
    ensures Confirm(cfg, s, last.tx, last.height).0 ==
      if IsDisprove(s.active.1.postAssertTxid, last.tx) then Disproved
      else Resolved(s.active.1.claimTxid, s.withdrawalRequestTxid, s.fulfillmentTxid, s.active.1.payoutTxid, Contested)
  {
  }

  lemma {:induction false} RunConcat(cfg: Cfg, m: Machine, a: seq<Event>, b: seq<Event>)
    ensures Run(cfg, m, a + b) == Run(cfg, Run(cfg, m, a), b)
    decreases |b|
  {
    hide Step;
    if b == [] {
      assert a + b == a;
    } else {
      RunConcat(cfg, m, a, b[..|b| - 1]);
      assert (a + b)[..|a + b| - 1] == a + b[..|b| - 1];
    }
  }

  /** From every reachable fulfilled state: once its claim, a challenge, its pre-assert, all assert-data transactions
      (in any order, with repeats), its post-assert and its payout have confirmed, the withdrawal is resolved with the
      contested payout; with a disproof in place of the payout it is disproved. */
  lemma ContestedWithdrawalEnds(cfg: Cfg, env: Env, height: Height, deadline: Height, evs: seq<Event>, claim: Event,
      challenge: Event, preAssert: Event, asserts: seq<Event>, post: Event, last: Event)
    requires CfgOk(cfg, env) && AdmissibleRun(cfg, env, height, deadline, evs)
    requires var s := Exec(cfg, height, deadline, evs).m.state;
      && s.Fulfilled? && Opening(cfg, s.active.1, claim, challenge, preAssert)
      && s.active.1.postAssertTxid !in s.active.1.assertDataTxids
      && AssertsOf(s.active.1, asserts) && TxidsOf(asserts) == Elems(s.active.1.assertDataTxids)
      && ProofParses(cfg, s.active.1, asserts)
      && post.PegOutGraphConfirmation? && post.tx.txid == s.active.1.postAssertTxid
      && last.PegOutGraphConfirmation?
      && (IsDisprove(s.active.1.postAssertTxid, last.tx) || last.tx.txid == s.active.1.payoutTxid)
    ensures var m := Exec(cfg, height, deadline, evs).m; var s := m.state;
      Run(cfg, m, [claim, challenge, preAssert] + asserts + [post] + [last]).state ==
        if IsDisprove(s.active.1.postAssertTxid, last.tx) then Disproved
        else Resolved(s.active.1.claimTxid, s.withdrawalRequestTxid, s.fulfillmentTxid, s.active.1.payoutTxid,
          Contested)
  {
    hide AdmissibleRun, Exec, Run, Opening, AssertsOf, TxidsOf, ProofParses, Collecting, IsDisprove, LifeOk, RequestOk;
    hide GraphsWellFormed, VerifiedPartialsAggregate, Confirm;
    var m := Exec(cfg, height, deadline, evs).m;
    ReachableInvariant(cfg, env, height, deadline, evs);
    var opening := [claim, challenge, preAssert];
    OpeningReaches(cfg, m, claim, challenge, preAssert);
    var m1 := Run(cfg, m, opening);
    SameLife(cfg, m.state, m1.state);
    AssertsCollect(cfg, m1, asserts);
    RunConcat(cfg, m, opening, asserts);
    var m2 := Run(cfg, m, opening + asserts);
    PostAssertAccepted(cfg, m1.state, asserts, m2.state, post);
    ConfirmOneMore(cfg, m, opening + asserts, post);
    LastTransaction(cfg, Run(cfg, m, opening + asserts + [post]).state, last);
    ConfirmOneMore(cfg, m, opening + asserts + [post], last);
  }

  lemma ClaimAccepted(cfg: Cfg, s: ContractState, claim: Event)
    requires s.Fulfilled? && claim.PegOutGraphConfirmation?
    requires claim.tx.txid == s.active.1.claimTxid && cfg.parseClaim(claim.tx).Some?
    ensures var s' := Confirm(cfg, s, claim.tx, claim.height).0;
      && s'.Claimed? && s'.active == s.active && s'.withdrawalRequestTxid == s.withdrawalRequestTxid
      && s'.fulfillmentTxid == s.fulfillmentTxid
  {
  }

  lemma OptimisticPayoutAccepted(cfg: Cfg, s: ContractState, payout: Event)
    requires s.Claimed? && payout.PegOutGraphConfirmation?
    requires payout.tx.txid == s.active.1.payoutOptimisticTxid && !IsChallenge(s.active.1.claimTxid, payout.tx)
    ensures Confirm(cfg, s, payout.tx, payout.height).0
         == Resolved(s.active.1.claimTxid, s.withdrawalRequestTxid, s.fulfillmentTxid, payout.tx.txid, Optimistic)
  {
    hide IsChallenge;
  }

  /** Unchallenged: claim and optimistic payout resolve the withdrawal. */
  lemma OptimisticWithdrawalEnds(cfg: Cfg, m: Machine, claim: Event, payout: Event)
    requires m.state.Fulfilled? && claim.PegOutGraphConfirmation? && payout.PegOutGraphConfirmation?
    requires claim.tx.txid == m.state.active.1.claimTxid && cfg.parseClaim(claim.tx).Some?
    requires payout.tx.txid == m.state.active.1.payoutOptimisticTxid
    requires !IsChallenge(m.state.active.1.claimTxid, payout.tx)
    ensures Run(cfg, m, [claim, payout]).state ==
      var s := m.state;
      Resolved(s.active.1.claimTxid, s.withdrawalRequestTxid, s.fulfillmentTxid, s.active.1.payoutOptimisticTxid,
        Optimistic)
  {
    hide IsChallenge, Step, Confirm;
    assert [claim] == [] + [claim];
    ConfirmOneMore(cfg, m, [], claim);
    ClaimAccepted(cfg, m.state, claim);
    assert [claim, payout] == [claim] + [payout];
    ConfirmOneMore(cfg, m, [claim], payout);
    OptimisticPayoutAccepted(cfg, Run(cfg, m, [claim]).state, payout);
  }
}
