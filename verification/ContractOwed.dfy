/** Which duties a contract gives after its deposit: exactly those it owes, at exactly the event that makes them due. */
module ContractOwed {
  import opened Collections
  import opened ContractTypes
  import opened ContractSpec
  import opened ContractInvariant
  import opened ContractSigning
  import opened ContractRuns
  import opened ContractBlocks
  import opened ContractDuties
  import opened ContractHistory

  /** The duties of the signing phase; all others are the withdrawal's. */
  predicate IsSigningDuty(d: Duty) {
    || d.PublishGraphNonces? || d.PublishGraphSignatures? || d.PublishRootNonce? || d.PublishRootSignature?
    || d.PublishDeposit?
  }

  /** The event is the next block, at least `timelock` blocks after the confirmation at position `i` of the run. */
  ghost predicate DueSince(m: Machine, evs: seq<Event>, i: nat, timelock: nat, ev: Event) {
    && i < |evs| && evs[i].PegOutGraphConfirmation?
    && ev == Block(m.blockHeight + 1) && ev.height >= evs[i].height + timelock
  }

  /** The confirmation completes the assert-data set. */
  ghost predicate CompletesAsserts(s: ContractState, tx: Tx)
    requires s.PreAssertConfirmed?
  {
    tx.txid in s.active.1.assertDataTxids && s.signedAsserts.Keys + {tx.txid} == Elems(s.active.1.assertDataTxids)
  }

  /** The pre-assert confirms, and is neither a challenge nor the optimistic payout of an unchallenged claim. */
  ghost predicate PreAsserts(s: ContractState, tx: Tx)
    requires s.Claimed? || s.Challenged?
  {
    && tx.txid == s.active.1.preAssertTxid
    && (s.Claimed? ==> !IsChallenge(s.active.1.claimTxid, tx) && tx.txid != s.active.1.payoutOptimisticTxid)
  }

  /** The filed transactions, in graph order, parse to a proof. */
  ghost predicate FiledProofParses(cfg: Cfg, s: ContractState)
    requires s.AssertDataConfirmed?
  {
    exists batch: AssertBatch ::
      && |batch.txs| == |s.active.1.assertDataTxids| && cfg.parseAsserts(batch).Some?
      && forall i | 0 <= i < |batch.txs| ::
           s.active.1.assertDataTxids[i] in s.signedAsserts
           && batch.txs[i] == s.signedAsserts[s.active.1.assertDataTxids[i]]
  }

  /** What a contract owes at an event, in terms of its state, the run that led there and the event. */
  ghost predicate Owed(cfg: Cfg, m: Machine, evs: seq<Event>, w: Trail, ev: Event, d: Duty) {
    var s := m.state;
    var mine := HasActive(s) && s.fulfiller == cfg.table.pov;
    match d
    case Abort => s.Requested? && ev == Block(m.blockHeight + 1) && ev.height >= s.r.abortDeadline
    case HandleFulfillment(stakeTx, operator, recipient, deadline) =>
      && Assigns(cfg, ev) && stakeTx == ev.stakeTx
      && recipient == ev.entry.dispatched.value.recipient.value && deadline == ev.entry.dispatched.value.deadline
      && (|| ((s.Deposited? || s.Assigned?) && operator == ev.entry.dispatched.value.assignee)
          || (s.Aborted? && operator == STUB_OPERATOR_IDX))
    case PublishClaim(fulfillmentTxid, stakeTxid) =>
      && mine && s.Assigned? && ev.PegOutGraphConfirmation? && fulfillmentTxid == ev.tx.txid
      && cfg.isFulfillment(FulfillmentCheck(cfg.table.pov, s.recipient, ev.tx)) && stakeTxid == s.active.1.stakeTxid
    case VerifyClaim =>
      && s.Fulfilled? && !mine && ev.PegOutGraphConfirmation? && ev.tx.txid == s.active.1.claimTxid
      && cfg.parseClaim(ev.tx).Some?
    case PublishPayoutOptimistic(claimTxid, stakeTxid, sig) =>
      && mine && s.Claimed? && DueSince(m, evs, w.claim, cfg.payoutOptimisticTimelock, ev)
      && claimTxid == s.active.1.claimTxid && stakeTxid == s.active.1.stakeTxid && SignedBy(s.g, s.active, sig)
    case PublishPreAssert(claimTxid, sig) =>
      && mine && s.Challenged? && DueSince(m, evs, w.claim, cfg.preAssertTimelock, ev)
      && claimTxid == s.active.1.claimTxid && SignedBy(s.g, s.active, sig)
    case PublishAssertData(fulfillmentTxid, startHeight, preAssertTxid, scripts) =>
      && mine && (s.Claimed? || s.Challenged?) && ev.PegOutGraphConfirmation? && PreAsserts(s, ev.tx)
      && |ev.tx.outputs| >= NUM_ASSERT_DATA_TX && scripts == ev.tx.outputs[..NUM_ASSERT_DATA_TX]
      && w.fulfillment < |evs| && evs[w.fulfillment].PegOutGraphConfirmation?
      && fulfillmentTxid == evs[w.fulfillment].tx.txid
      && w.assignment < |evs| && evs[w.assignment].Assignment? && startHeight == evs[w.assignment].l1Height
      && preAssertTxid == s.active.1.preAssertTxid
    case PublishPostAssertData(assertDataTxids, sig) =>
      && mine && s.PreAssertConfirmed? && ev.PegOutGraphConfirmation? && CompletesAsserts(s, ev.tx)
      && assertDataTxids == s.active.1.assertDataTxids && SignedBy(s.g, s.active, sig)
    case VerifyAssertion =>
      && mine && s.AssertDataConfirmed? && ev.PegOutGraphConfirmation?
      && ev.tx.txid == s.active.1.postAssertTxid && FiledProofParses(cfg, s)
    case PublishPayout(postAssertTxid, claimTxid, stakeTxid, sig) =>
      && mine && s.Asserted? && DueSince(m, evs, w.postAssert, cfg.payoutTimelock, ev)
      && postAssertTxid == s.active.1.postAssertTxid && claimTxid == s.active.1.claimTxid
      && stakeTxid == s.active.0.stakeTxid && SignedBy(s.g, s.active, sig)
    case PublishChallenge => s.Claimed? && ev.ClaimFailure?
    case PublishDisprove => s.Asserted? && ev.AssertionFailure?
    case _ => false
  }

  // ---------- handler by handler ----------

  lemma MessagesOweNothing(cfg: Cfg, m: Machine, evs: seq<Event>, w: Trail, ev: Event, d: Duty)
    requires IsMessage(ev) && !IsSigningDuty(d)
    ensures d !in DutiesOf(Step(cfg, m, ev).1) && !Owed(cfg, m, evs, w, ev, d)
  {
    hide Setup, AddNonces, AddPartials, InTableOrder, IsChallenge, FiledProofParses;
    if m.state.Requested? {
      var r := m.state.r;
      match ev
      case DepositSetup(_, _, _, _, _) => SetupAsksNonces(cfg, r, m.pog, ev);
      case GraphNonces(_, _, _) => if AddNonces(cfg, r, m.pog, ev).2.Ok? { NoncesAskSignatures(cfg, r, m.pog, ev); }
      case GraphSigs(_, _, _) => if AddPartials(cfg, r, m.pog, ev).1.Ok? { PartialsAskRootNonce(cfg, r, m.pog, ev); }
      case _ =>
    }
  }

  /** A complete assignment is answered with exactly one duty to front the withdrawal, by the assignee of a deposited
      contract and by a stub of an aborted one; any other assignment with none. */
  lemma AssignmentAnswered(cfg: Cfg, s: ContractState, ev: Event)
    requires ev.Assignment? && (!s.Requested? ==> LifeOk(cfg, s))
    ensures DutiesOf(ProcessAssignment(cfg, s, ev).1) ==
      if !Assigns(cfg, ev) || !(s.Deposited? || s.Assigned? || s.Aborted?) then []
      else
        var d := ev.entry.dispatched.value;
        var operator := if s.Aborted? then STUB_OPERATOR_IDX else d.assignee;
        [HandleFulfillment(ev.stakeTx, operator, d.recipient.value, d.deadline)]
  {
    hide FindIdx, AssertsOk;
    if ev.entry.dispatched.Some? {
      var idx := ev.entry.dispatched.value.assignee;
      if cfg.table.KeyOfIdx(idx).Some? {
        KeyIsInTable(cfg.table, idx);
        if HasGraphs(s) { assert GraphPaired(cfg, s.g, s.g.claimTxids[cfg.table.KeyOfIdx(idx).value]); }
      }
    }
  }

  lemma AssignmentOwes(cfg: Cfg, m: Machine, evs: seq<Event>, w: Trail, ev: Event, d: Duty)
    requires ev.Assignment? && (!m.state.Requested? ==> LifeOk(cfg, m.state))
    ensures d in DutiesOf(Step(cfg, m, ev).1) <==> Owed(cfg, m, evs, w, ev, d)
  {
    hide LifeOk, ProcessAssignment, FiledProofParses, IsChallenge;
    AssignmentAnswered(cfg, m.state, ev);
  }

  lemma BlockOwes(cfg: Cfg, m: Machine, evs: seq<Event>, w: Trail, ev: Event, d: Duty)
    requires ev.Block? && (!m.state.Requested? ==> LifeOk(cfg, m.state)) && Recorded(cfg, m.state, evs, w)
    ensures d in DutiesOf(Step(cfg, m, ev).1) <==> Owed(cfg, m, evs, w, ev, d)
  {
    hide LifeOk, Recorded, IsChallenge, FiledProofParses;
    if m.state.Claimed? || m.state.Challenged? || m.state.Asserted? {
      ActiveSigned(cfg, m.state);
      TimelocksRecorded(cfg, m.state, evs, w);
    }
  }

  /** The heights timelocks are counted from are those of the confirmations in the run. */
  lemma TimelocksRecorded(cfg: Cfg, s: ContractState, evs: seq<Event>, w: Trail)
    requires Timelocked(s) && Recorded(cfg, s, evs, w)
    ensures s.Claimed? || s.Challenged? ==>
      w.claim < |evs| && evs[w.claim].PegOutGraphConfirmation? && s.claimHeight == evs[w.claim].height
    ensures s.Asserted? ==>
      && w.postAssert < |evs| && evs[w.postAssert].PegOutGraphConfirmation?
      && s.postAssertHeight == evs[w.postAssert].height
  {
    hide AssignmentRecorded, FulfillmentRecorded, ConfirmedTx;
  }

  lemma OriginRecorded(cfg: Cfg, s: ContractState, evs: seq<Event>, w: Trail)
    requires (s.Claimed? || s.Challenged?) && Recorded(cfg, s, evs, w)
    ensures w.fulfillment < |evs| && evs[w.fulfillment].PegOutGraphConfirmation?
    ensures s.fulfillmentTxid == evs[w.fulfillment].tx.txid
    ensures w.assignment < |evs| && evs[w.assignment].Assignment? && s.l1StartHeight == evs[w.assignment].l1Height
  {
    hide ClaimRecorded, AssertRecorded;
  }

  lemma EarlyConfirmOwes(cfg: Cfg, m: Machine, evs: seq<Event>, w: Trail, ev: Event, d: Duty)
    requires ev.PegOutGraphConfirmation? && Recorded(cfg, m.state, evs, w)
    requires !m.state.PreAssertConfirmed? && !m.state.AssertDataConfirmed?
    ensures d in DutiesOf(Step(cfg, m, ev).1) <==> Owed(cfg, m, evs, w, ev, d)
  {
    hide Recorded, IsChallenge, IsDisprove, FiledProofParses;
    if m.state.Claimed? || m.state.Challenged? { OriginRecorded(cfg, m.state, evs, w); }
  }

  /** The fulfiller is told to publish the post-assert exactly when the set is completed. */
  lemma AssertDataAnswered(cfg: Cfg, s: ContractState, tx: Tx)
    requires s.PreAssertConfirmed? && LifeOk(cfg, s) && GraphsWellFormed(cfg)
    ensures s.active.1.claimTxid in s.g.graphSigs
    ensures DutiesOf(ConfirmAssertData(cfg, s, tx).1) ==
      if s.fulfiller == cfg.table.pov && CompletesAsserts(s, tx)
      then [PublishPostAssertData(s.active.1.assertDataTxids, s.g.graphSigs[s.active.1.claimTxid])] else []
  {
    hide GraphsOk, ActiveOk, GraphsWellFormed;
    ActiveSigned(cfg, s);
    ActiveAsserts(cfg, s);
    var ids := Elems(s.active.1.assertDataTxids);
    if tx.txid in s.active.1.assertDataTxids {
      var signed := s.signedAsserts[tx.txid := tx];
      assert signed.Keys == s.signedAsserts.Keys + {tx.txid} && |signed| == |signed.Keys|;
      SubsetSize(signed.Keys, ids);
      if |signed.Keys| == |ids| { SubsetOfSameSize(signed.Keys, ids); }
    }
  }

  lemma AssertDataOwes(cfg: Cfg, m: Machine, evs: seq<Event>, w: Trail, ev: Event, d: Duty)
    requires ev.PegOutGraphConfirmation? && m.state.PreAssertConfirmed?
    requires LifeOk(cfg, m.state) && GraphsWellFormed(cfg)
    ensures d in DutiesOf(Step(cfg, m, ev).1) <==> Owed(cfg, m, evs, w, ev, d)
  {
    hide LifeOk, GraphsWellFormed, ConfirmAssertData, IsChallenge, FiledProofParses, CompletesAsserts;
    AssertDataAnswered(cfg, m.state, ev.tx);
  }

  lemma PostAssertAnswered(cfg: Cfg, s: ContractState, tx: Tx, height: Height)
    requires s.AssertDataConfirmed? && LifeOk(cfg, s) && GraphsWellFormed(cfg)
    ensures DutiesOf(ConfirmPostAssert(cfg, s, tx, height).1) ==
      if s.fulfiller == cfg.table.pov && tx.txid == s.active.1.postAssertTxid && FiledProofParses(cfg, s)
      then [VerifyAssertion] else []
  {
    hide GraphsOk, ActiveOk, GraphsWellFormed, FiledProofParses;
    ActiveAsserts(cfg, s);
    var ids := s.active.1.assertDataTxids;
    assert |s.signedAsserts| == |s.signedAsserts.Keys|;
    assert forall t | t in ids :: t in Elems(ids);
    assert AllSigned(ids, s.signedAsserts);
    TheFiledBatch(cfg, s);
  }

  lemma PostAssertOwes(cfg: Cfg, m: Machine, evs: seq<Event>, w: Trail, ev: Event, d: Duty)
    requires ev.PegOutGraphConfirmation? && m.state.AssertDataConfirmed?
    requires LifeOk(cfg, m.state) && GraphsWellFormed(cfg)
    ensures d in DutiesOf(Step(cfg, m, ev).1) <==> Owed(cfg, m, evs, w, ev, d)
  {
    hide LifeOk, GraphsWellFormed, ConfirmPostAssert, IsChallenge, FiledProofParses;
    PostAssertAnswered(cfg, m.state, ev.tx, ev.height);
  }

  lemma TheFiledBatch(cfg: Cfg, s: ContractState)
    requires s.AssertDataConfirmed? && AllSigned(s.active.1.assertDataTxids, s.signedAsserts)
    ensures FiledProofParses(cfg, s)
       <==> cfg.parseAsserts(AssertBatch(Images(s.active.1.assertDataTxids, s.signedAsserts))).Some?
  {
    var ids := s.active.1.assertDataTxids;
    var mine := AssertBatch(Images(ids, s.signedAsserts));
    assert forall i | 0 <= i < |ids| :: ids[i] in ids;
    if FiledProofParses(cfg, s) {
      var batch: AssertBatch :|
        && |batch.txs| == |ids| && cfg.parseAsserts(batch).Some?
        && forall i | 0 <= i < |batch.txs| :: ids[i] in s.signedAsserts && batch.txs[i] == s.signedAsserts[ids[i]];
      assert batch.txs == mine.txs;
    }
  }

  lemma OtherEventsOwe(cfg: Cfg, m: Machine, evs: seq<Event>, w: Trail, ev: Event, d: Duty)
    requires ev.DepositConfirmation? || ev.ClaimFailure? || ev.AssertionFailure?
    ensures d in DutiesOf(Step(cfg, m, ev).1) <==> Owed(cfg, m, evs, w, ev, d)
  {
    hide CanConfirm, PairGraphs, IsChallenge, FiledProofParses;
  }

  // ---------- over runs ----------

  /** Over every admissible run and for any next event: a withdrawal duty is given if and only if it is owed.  The
      timelocks are counted from the confirmations in the run itself. */
  lemma DutiesAreExactlyOwed(cfg: Cfg, env: Env, height: Height, deadline: Height, evs: seq<Event>, ev: Event)
    returns (w: Trail)
    requires CfgOk(cfg, env) && AdmissibleRun(cfg, env, height, deadline, evs)
    ensures var m := Exec(cfg, height, deadline, evs).m;
      && Recorded(cfg, m.state, evs, w)
      && forall d | !IsSigningDuty(d) :: d in DutiesOf(Step(cfg, m, ev).1) <==> Owed(cfg, m, evs, w, ev, d)
  {
    hide RequestOk, LifeOk, Exec, AdmissibleRun, Step, Owed, Recorded, GraphsWellFormed, VerifiedPartialsAggregate;
    w := RunsAreRecorded(cfg, env, height, deadline, evs);
    var m := Exec(cfg, height, deadline, evs).m;
    ReachableInvariant(cfg, env, height, deadline, evs);
    forall d | !IsSigningDuty(d) ensures d in DutiesOf(Step(cfg, m, ev).1) <==> Owed(cfg, m, evs, w, ev, d) {
      StepOwes(cfg, m, evs, w, ev, d);
    }
  }

  lemma StepOwes(cfg: Cfg, m: Machine, evs: seq<Event>, w: Trail, ev: Event, d: Duty)
    requires GraphsWellFormed(cfg) && (!m.state.Requested? ==> LifeOk(cfg, m.state)) && Recorded(cfg, m.state, evs, w)
    requires !IsSigningDuty(d)
    ensures d in DutiesOf(Step(cfg, m, ev).1) <==> Owed(cfg, m, evs, w, ev, d)
  {
    hide LifeOk, Step, Owed, Recorded, GraphsWellFormed;
    if IsMessage(ev) {
      MessagesOweNothing(cfg, m, evs, w, ev, d);
    } else {
      match ev
      case Assignment(_, _, _) => AssignmentOwes(cfg, m, evs, w, ev, d);
      case Block(_) => BlockOwes(cfg, m, evs, w, ev, d);
      case PegOutGraphConfirmation(_, _) =>
        if m.state.PreAssertConfirmed? {
          AssertDataOwes(cfg, m, evs, w, ev, d);
        } else if m.state.AssertDataConfirmed? {
          PostAssertOwes(cfg, m, evs, w, ev, d);
        } else {
          EarlyConfirmOwes(cfg, m, evs, w, ev, d);
        }
      case _ => OtherEventsOwe(cfg, m, evs, w, ev, d);
    }
  }

  /** The duty is owed at a position of the run. */
  ghost predicate OwedAt(cfg: Cfg, height: Height, deadline: Height, evs: seq<Event>, i: nat, d: Duty)
    requires i < |evs|
  {
    var m := Exec(cfg, height, deadline, evs[..i]).m;
    exists w :: Recorded(cfg, m.state, evs[..i], w) && Owed(cfg, m, evs[..i], w, evs[i], d)
  }

  /** Over every admissible run: a withdrawal duty was given if and only if it was owed at some event. */
  lemma {:induction false} DutiesOfRuns(cfg: Cfg, env: Env, height: Height, deadline: Height, evs: seq<Event>, d: Duty)
    requires CfgOk(cfg, env) && AdmissibleRun(cfg, env, height, deadline, evs) && !IsSigningDuty(d)
    ensures d in Exec(cfg, height, deadline, evs).duties
       <==> exists i: nat :: i < |evs| && OwedAt(cfg, height, deadline, evs, i, d)
    decreases |evs|
  {
    hide CfgOk, Step, Owed, Recorded, Admissible, LifeOk, RequestOk;
    if evs != [] {
      var last := |evs| - 1;
      var front, ev := evs[..last], evs[last];
      DutiesOfRuns(cfg, env, height, deadline, front, d);
      var w := DutiesAreExactlyOwed(cfg, env, height, deadline, front, ev);
      var m := Exec(cfg, height, deadline, front).m;
      assert d in DutiesOf(Step(cfg, m, ev).1) <==> OwedAt(cfg, height, deadline, evs, last, d) by {
        OwedAnyTrail(cfg, env, height, deadline, front, ev, d);
        if d in DutiesOf(Step(cfg, m, ev).1) { assert Owed(cfg, m, front, w, ev, d); }
      }
      forall i: nat | i < last
        ensures OwedAt(cfg, height, deadline, evs, i, d) == OwedAt(cfg, height, deadline, front, i, d)
      {
        assert evs[..i] == front[..i];
      }
    }
  }

  lemma OwedAnyTrail(cfg: Cfg, env: Env, height: Height, deadline: Height, evs: seq<Event>, ev: Event, d: Duty)
    requires CfgOk(cfg, env) && AdmissibleRun(cfg, env, height, deadline, evs) && !IsSigningDuty(d)
    ensures var m := Exec(cfg, height, deadline, evs).m;
      forall w | Recorded(cfg, m.state, evs, w) && Owed(cfg, m, evs, w, ev, d) :: d in DutiesOf(Step(cfg, m, ev).1)
  {
    hide RequestOk, LifeOk, Exec, AdmissibleRun, Step, Owed, Recorded, GraphsWellFormed, VerifiedPartialsAggregate;
    var m := Exec(cfg, height, deadline, evs).m;
    ReachableInvariant(cfg, env, height, deadline, evs);
    forall w | Recorded(cfg, m.state, evs, w) && Owed(cfg, m, evs, w, ev, d) ensures d in DutiesOf(Step(cfg, m, ev).1) {
      StepOwes(cfg, m, evs, w, ev, d);
    }
  }

  /** Outside the signing phase an event gives at most one duty. */
  lemma OneDutyAtATime(cfg: Cfg, m: Machine, ev: Event)
    requires !IsMessage(ev) || !m.state.Requested?
    ensures |DutiesOf(Step(cfg, m, ev).1)| <= 1
  {
    hide CanConfirm, PairGraphs, IsChallenge, IsDisprove, AllSigned, FindIdx;
  }
}
