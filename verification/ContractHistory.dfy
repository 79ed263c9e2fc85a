/** Everything a contract stores about its withdrawal, traced back to the events of the run. */
module ContractHistory {
  import opened Collections
  import opened ContractTypes
  import opened ContractSpec
  import opened ContractInvariant
  import opened ContractRuns

  // ---------- what an event says ----------

  /** A complete assignment of this contract's deposit to an operator in the table. */
  ghost predicate Assigns(cfg: Cfg, ev: Event) {
    && ev.Assignment? && ev.entry.idx == cfg.depositIdx && ev.entry.withdrawalRequestTxid.Some?
    && ev.entry.dispatched.Some? && ev.entry.dispatched.value.recipient.Some?
    && exists o :: o in cfg.table.operators && o.idx == ev.entry.dispatched.value.assignee
  }

  /** Where the steps of a withdrawal stand in the run. */
  datatype Trail = Trail(assignment: nat, fulfillment: nat, claim: nat, postAssert: nat)

  ghost predicate AssignedAt(cfg: Cfg, evs: seq<Event>, i: nat, fulfiller: OpIdx, request: nat) {
    && i < |evs| && Assigns(cfg, evs[i])
    && evs[i].entry.dispatched.value.assignee == fulfiller && evs[i].entry.withdrawalRequestTxid.value == request
  }

  /** No complete assignment stands strictly between two positions. */
  ghost predicate NoneAssigned(cfg: Cfg, evs: seq<Event>, lo: nat, hi: nat) {
    forall k | lo < k < hi && k < |evs| :: !Assigns(cfg, evs[k])
  }

  /** The position confirms a transaction that pays the recipient of the assignment on the fulfiller's behalf. */
  ghost predicate FulfilledAt(cfg: Cfg, evs: seq<Event>, i: nat, j: nat, fulfiller: OpIdx, txid: Txid) {
    && i < j < |evs| && Assigns(cfg, evs[i]) && evs[j].PegOutGraphConfirmation? && evs[j].tx.txid == txid
    && cfg.isFulfillment(FulfillmentCheck(fulfiller, evs[i].entry.dispatched.value.recipient.value, evs[j].tx))
  }

  ghost predicate ClaimedAt(cfg: Cfg, evs: seq<Event>, i: nat, claimTxid: Txid, commitment: nat) {
    && i < |evs| && evs[i].PegOutGraphConfirmation? && evs[i].tx.txid == claimTxid
    && cfg.parseClaim(evs[i].tx) == Some(commitment)
  }

  ghost predicate ChallengedAfter(evs: seq<Event>, lo: nat, claimTxid: Txid) {
    exists k :: lo < k < |evs| && evs[k].PegOutGraphConfirmation? && IsChallenge(claimTxid, evs[k].tx)
  }

  ghost predicate ConfirmedTx(evs: seq<Event>, tx: Tx) {
    exists k :: 0 <= k < |evs| && evs[k].PegOutGraphConfirmation? && evs[k].tx == tx
  }

  /** The proof was parsed from confirmed assert-data transactions in graph order. */
  ghost predicate ProvedBy(cfg: Cfg, evs: seq<Event>, graph: Summary, proof: nat, batch: AssertBatch) {
    && cfg.parseAsserts(batch) == Some(proof) && |batch.txs| == |graph.assertDataTxids|
    && forall i | 0 <= i < |batch.txs| ::
         batch.txs[i].txid == graph.assertDataTxids[i] && ConfirmedTx(evs, batch.txs[i])
  }

  // ---------- the record ----------

  /** The assignment in force. */
  ghost predicate AssignmentRecorded(cfg: Cfg, s: ContractState, evs: seq<Event>, w: Trail)
    requires HasActive(s)
  {
    && AssignedAt(cfg, evs, w.assignment, s.fulfiller, s.withdrawalRequestTxid)
    && NoneAssigned(cfg, evs, w.assignment, if s.Assigned? then |evs| else w.fulfillment)
    && (s.Assigned? ==>
          && s.recipient == evs[w.assignment].entry.dispatched.value.recipient.value
          && s.deadline == evs[w.assignment].entry.dispatched.value.deadline)
    && (!s.AssertDataConfirmed? && !s.Asserted? ==> s.l1StartHeight == evs[w.assignment].l1Height)
  }

  ghost predicate FulfillmentRecorded(cfg: Cfg, s: ContractState, evs: seq<Event>, w: Trail)
    requires HasActive(s) && !s.Assigned?
  {
    && FulfilledAt(cfg, evs, w.assignment, w.fulfillment, s.fulfiller, s.fulfillmentTxid)
    && (s.Fulfilled? ==> s.fulfillmentHeight == evs[w.fulfillment].height)
  }

  predicate PastClaim(s: ContractState) {
    HasActive(s) && !s.Assigned? && !s.Fulfilled?
  }

  ghost predicate ClaimRecorded(cfg: Cfg, s: ContractState, evs: seq<Event>, w: Trail)
    requires PastClaim(s)
  {
    && w.fulfillment < w.claim && ClaimedAt(cfg, evs, w.claim, s.active.1.claimTxid, s.commitment)
    && (s.Claimed? || s.Challenged? || s.PreAssertConfirmed? ==> s.claimHeight == evs[w.claim].height)
    && (s.Challenged? ==> ChallengedAfter(evs, w.claim, s.active.1.claimTxid))
    && (s.PreAssertConfirmed? || s.AssertDataConfirmed? ==>
          forall t | t in s.signedAsserts :: s.signedAsserts[t].txid == t && ConfirmedTx(evs, s.signedAsserts[t]))
  }

  ghost predicate AssertRecorded(cfg: Cfg, s: ContractState, evs: seq<Event>, w: Trail)
    requires s.Asserted?
  {
    && w.claim < w.postAssert < |evs| && evs[w.postAssert].PegOutGraphConfirmation?
    && evs[w.postAssert].tx.txid == s.active.1.postAssertTxid && s.postAssertHeight == evs[w.postAssert].height
    && exists batch :: ProvedBy(cfg, evs, s.active.1, s.proof, batch)
  }

  /** Assignment, fulfilment, claim and post-assert are found in the run, in this order, and every field of the state
      comes from them. */
  ghost predicate Recorded(cfg: Cfg, s: ContractState, evs: seq<Event>, w: Trail) {
    && (HasActive(s) ==> AssignmentRecorded(cfg, s, evs, w))
    && (HasActive(s) && !s.Assigned? ==> FulfillmentRecorded(cfg, s, evs, w))
    && (PastClaim(s) ==> ClaimRecorded(cfg, s, evs, w))
    && (s.Asserted? ==> AssertRecorded(cfg, s, evs, w))
  }

  // ---------- more events do not change the past ----------

  lemma TxStays(evs: seq<Event>, ev: Event, tx: Tx)
    requires ConfirmedTx(evs, tx)
    ensures ConfirmedTx(evs + [ev], tx)
  {
    var k :| 0 <= k < |evs| && evs[k].PegOutGraphConfirmation? && evs[k].tx == tx;
    assert (evs + [ev])[k] == evs[k];
  }

  lemma ClaimRecordStays(cfg: Cfg, s: ContractState, evs: seq<Event>, ev: Event, w: Trail)
    requires PastClaim(s) && ClaimRecorded(cfg, s, evs, w)
    ensures ClaimRecorded(cfg, s, evs + [ev], w)
  {
    hide ConfirmedTx, IsChallenge;
    if s.Challenged? {
      var k :| w.claim < k < |evs| && evs[k].PegOutGraphConfirmation? && IsChallenge(s.active.1.claimTxid, evs[k].tx);
      assert (evs + [ev])[k] == evs[k];
    }
    if s.PreAssertConfirmed? || s.AssertDataConfirmed? {
      forall t | t in s.signedAsserts ensures ConfirmedTx(evs + [ev], s.signedAsserts[t]) {
        TxStays(evs, ev, s.signedAsserts[t]);
      }
    }
  }

  lemma AssertRecordStays(cfg: Cfg, s: ContractState, evs: seq<Event>, ev: Event, w: Trail)
    requires s.Asserted? && AssertRecorded(cfg, s, evs, w)
    ensures AssertRecorded(cfg, s, evs + [ev], w)
  {
    hide ConfirmedTx;
    var batch :| ProvedBy(cfg, evs, s.active.1, s.proof, batch);
    forall i | 0 <= i < |batch.txs| ensures ConfirmedTx(evs + [ev], batch.txs[i]) {
      TxStays(evs, ev, batch.txs[i]);
    }
    assert ProvedBy(cfg, evs + [ev], s.active.1, s.proof, batch);
  }

  lemma AssignmentRecordStays(cfg: Cfg, s: ContractState, evs: seq<Event>, ev: Event, w: Trail)
    requires HasActive(s) && AssignmentRecorded(cfg, s, evs, w) && (s.Assigned? ==> !Assigns(cfg, ev))
    requires !s.Assigned? ==> w.fulfillment < |evs|
    ensures AssignmentRecorded(cfg, s, evs + [ev], w)
  {
    hide Assigns;
  }

  lemma RecordStays(cfg: Cfg, s: ContractState, evs: seq<Event>, ev: Event, w: Trail)
    requires Recorded(cfg, s, evs, w) && (s.Assigned? ==> !Assigns(cfg, ev))
    ensures Recorded(cfg, s, evs + [ev], w)
  {
    hide AssignmentRecorded, ClaimRecorded, AssertRecorded, Assigns;
    if HasActive(s) { AssignmentRecordStays(cfg, s, evs, ev, w); }
    if PastClaim(s) { ClaimRecordStays(cfg, s, evs, ev, w); }
    if s.Asserted? { AssertRecordStays(cfg, s, evs, ev, w); }
  }

  // ---------- one more event ----------

  /** In a state with complete graphs an assignment takes effect if and only if it is complete. */
  lemma AssignmentRecords(cfg: Cfg, s: ContractState, evs: seq<Event>, ev: Event, w: Trail) returns (w': Trail)
    requires LifeOk(cfg, s) && (s.Deposited? || s.Assigned?) && ev.Assignment? && Recorded(cfg, s, evs, w)
    ensures Recorded(cfg, ProcessAssignment(cfg, s, ev).0, evs + [ev], w')
  {
    hide LifeOk, FindIdx;
    AssignmentTakesEffect(cfg, s, ev);
    w' := w;
    if Assigns(cfg, ev) {
      w' := w.(assignment := |evs|);
    } else {
      RecordStays(cfg, s, evs, ev, w);
    }
  }

  /** A complete assignment of a deposited contract is taken over field by field, with the assignee's own graph; any
      other leaves the state alone. */
  lemma AssignmentTakesEffect(cfg: Cfg, s: ContractState, ev: Event)
    requires LifeOk(cfg, s) && (s.Deposited? || s.Assigned?) && ev.Assignment?
    ensures var s' := ProcessAssignment(cfg, s, ev).0;
      if !Assigns(cfg, ev) then s' == s
      else
        var d := ev.entry.dispatched.value;
        && s'.Assigned? && s'.g == s.g && ActiveOk(cfg, s'.g, s'.fulfiller, s'.active)
        && s'.fulfiller == d.assignee && s'.recipient == d.recipient.value && s'.deadline == d.deadline
        && s'.withdrawalRequestTxid == ev.entry.withdrawalRequestTxid.value && s'.l1StartHeight == ev.l1Height
  {
    hide FindIdx;
    if ev.entry.dispatched.Some? {
      var key := cfg.table.KeyOfIdx(ev.entry.dispatched.value.assignee);
      if key.Some? {
        assert key.value in cfg.table.Keys() by { KeyIsInTable(cfg.table, ev.entry.dispatched.value.assignee); }
        assert GraphPaired(cfg, s.g, s.g.claimTxids[key.value]);
      }
    }
  }

  lemma KeyIsInTable(table: OperatorTable, idx: OpIdx)
    requires table.KeyOfIdx(idx).Some?
    ensures table.KeyOfIdx(idx).value in table.Keys()
  {
  }

  /** Each confirmation that moves the contract on adds its position and fields to the record. */
  lemma ConfirmRecords(cfg: Cfg, s: ContractState, evs: seq<Event>, ev: Event, w: Trail) returns (w': Trail)
    requires ev.PegOutGraphConfirmation? && Recorded(cfg, s, evs, w)
    ensures Recorded(cfg, Confirm(cfg, s, ev.tx, ev.height).0, evs + [ev], w')
  {
    hide Recorded, IsChallenge, IsDisprove, AllSigned;
    var s' := Confirm(cfg, s, ev.tx, ev.height).0;
    RecordStays(cfg, s, evs, ev, w);
    w' := w;
    if s.Assigned? && s' != s {
      w' := w.(fulfillment := |evs|);
      FulfillmentRecords(cfg, s, evs, ev, w);
    } else if s.Fulfilled? && s' != s {
      w' := w.(claim := |evs|);
      ClaimRecords(cfg, s, evs, ev, w);
    } else if s.Claimed? || s.Challenged? {
      AfterClaimRecords(cfg, s, evs, ev, w);
    } else if s.PreAssertConfirmed? {
      AssertDataRecords(cfg, s, evs, ev, w);
    } else if s.AssertDataConfirmed? && s' != s {
      w' := w.(postAssert := |evs|);
      PostAssertRecords(cfg, s, evs, ev, w);
    } else {
      NoRecordNeeded(cfg, s, s', evs, ev, w);
    }
  }

  lemma FulfillmentRecords(cfg: Cfg, s: ContractState, evs: seq<Event>, ev: Event, w: Trail)
    requires ev.PegOutGraphConfirmation? && s.Assigned? && Recorded(cfg, s, evs, w)
    requires ConfirmFulfillment(cfg, s, ev.tx, ev.height).0 != s
    ensures Recorded(cfg, ConfirmFulfillment(cfg, s, ev.tx, ev.height).0, evs + [ev], w.(fulfillment := |evs|))
  {
    hide Assigns;
  }

  lemma ClaimRecords(cfg: Cfg, s: ContractState, evs: seq<Event>, ev: Event, w: Trail)
    requires ev.PegOutGraphConfirmation? && s.Fulfilled? && Recorded(cfg, s, evs + [ev], w) && Recorded(cfg, s, evs, w)
    requires ConfirmClaim(cfg, s, ev.tx, ev.height).0 != s
    ensures Recorded(cfg, ConfirmClaim(cfg, s, ev.tx, ev.height).0, evs + [ev], w.(claim := |evs|))
  {
    hide Assigns;
  }

  lemma AfterClaimRecords(cfg: Cfg, s: ContractState, evs: seq<Event>, ev: Event, w: Trail)
    requires ev.PegOutGraphConfirmation? && (s.Claimed? || s.Challenged?)
    requires Recorded(cfg, s, evs + [ev], w) && Recorded(cfg, s, evs, w)
    ensures Recorded(cfg, Confirm(cfg, s, ev.tx, ev.height).0, evs + [ev], w)
  {
    hide Assigns, IsChallenge;
    assert (evs + [ev])[|evs|] == ev;
  }

  lemma AssertDataRecords(cfg: Cfg, s: ContractState, evs: seq<Event>, ev: Event, w: Trail)
    requires ev.PegOutGraphConfirmation? && s.PreAssertConfirmed? && Recorded(cfg, s, evs + [ev], w)
    ensures Recorded(cfg, ConfirmAssertData(cfg, s, ev.tx).0, evs + [ev], w)
  {
    hide Assigns, ConfirmedTx;
    JustConfirmedTx(evs, ev);
  }

  lemma JustConfirmedTx(evs: seq<Event>, ev: Event)
    requires ev.PegOutGraphConfirmation?
    ensures ConfirmedTx(evs + [ev], ev.tx)
  {
    assert (evs + [ev])[|evs|] == ev;
  }

  lemma PostAssertRecords(cfg: Cfg, s: ContractState, evs: seq<Event>, ev: Event, w: Trail)
    requires ev.PegOutGraphConfirmation? && s.AssertDataConfirmed?
    requires Recorded(cfg, s, evs + [ev], w) && Recorded(cfg, s, evs, w)
    requires ConfirmPostAssert(cfg, s, ev.tx, ev.height).0 != s
    ensures Recorded(cfg, ConfirmPostAssert(cfg, s, ev.tx, ev.height).0, evs + [ev], w.(postAssert := |evs|))
  {
    hide Assigns, ConfirmedTx;
    var ids := s.active.1.assertDataTxids;
    var batch := AssertBatch(Images(ids, s.signedAsserts));
    var s' := ConfirmPostAssert(cfg, s, ev.tx, ev.height).0;
    forall i | 0 <= i < |batch.txs| ensures batch.txs[i].txid == ids[i] && ConfirmedTx(evs + [ev], batch.txs[i]) {
      assert ids[i] in ids;
    }
    assert ProvedBy(cfg, evs + [ev], s.active.1, s'.proof, batch);
  }

  /** Outside these states a confirmation changes nothing that is recorded. */
  lemma NoRecordNeeded(cfg: Cfg, s: ContractState, s': ContractState, evs: seq<Event>, ev: Event, w: Trail)
    requires Recorded(cfg, s, evs + [ev], w) && (s' == s || !HasActive(s'))
    ensures Recorded(cfg, s', evs + [ev], w)
  {
  }

  lemma OtherEventsRecord(cfg: Cfg, m: Machine, evs: seq<Event>, ev: Event, w: Trail)
    requires Recorded(cfg, m.state, evs, w) && !ev.PegOutGraphConfirmation?
    requires ev.Assignment? ==> !m.state.Deposited? && !m.state.Assigned?
    ensures Recorded(cfg, Step(cfg, m, ev).0.state, evs + [ev], w)
  {
    hide Setup, AddNonces, AddPartials, AddRootNonce, AddRootPartial, CanConfirm, PairGraphs, Recorded, BlockDuty;
    var s' := Step(cfg, m, ev).0.state;
    RecordStays(cfg, m.state, evs, ev, w);
    NoRecordNeeded(cfg, m.state, s', evs, ev, w);
  }

  /** Over every admissible run: the fields of the state are those of the assignment in force, the fulfilment, the
      claim and the post-assert found in the run. */
  lemma {:induction false} RunsAreRecorded(cfg: Cfg, env: Env, height: Height, deadline: Height, evs: seq<Event>)
    returns (w: Trail)
    requires CfgOk(cfg, env) && AdmissibleRun(cfg, env, height, deadline, evs)
    ensures Recorded(cfg, Exec(cfg, height, deadline, evs).m.state, evs, w)
    decreases |evs|
  {
    hide CfgOk, Step, Confirm, Recorded, Admissible, RequestOk, LifeOk, ProcessAssignment;
    if evs == [] {
      w := Trail(0, 0, 0, 0);
      InitiallyRecorded(cfg, height, deadline, w);
    } else {
      var front, ev := evs[..|evs| - 1], evs[|evs| - 1];
      assert evs == front + [ev];
      w := RunsAreRecorded(cfg, env, height, deadline, front);
      var m := Exec(cfg, height, deadline, front).m;
      ReachableInvariant(cfg, env, height, deadline, front);
      if ev.PegOutGraphConfirmation? {
        w := ConfirmRecords(cfg, m.state, front, ev, w);
        StepIsHandler(cfg, m, ev);
      } else if ev.Assignment? && (m.state.Deposited? || m.state.Assigned?) {
        w := AssignmentRecords(cfg, m.state, front, ev, w);
        StepIsHandler(cfg, m, ev);
      } else {
        OtherEventsRecord(cfg, m, front, ev, w);
      }
    }
  }

  lemma StepIsHandler(cfg: Cfg, m: Machine, ev: Event)
    ensures ev.PegOutGraphConfirmation? ==> Step(cfg, m, ev).0.state == Confirm(cfg, m.state, ev.tx, ev.height).0
    ensures ev.Assignment? ==> Step(cfg, m, ev).0.state == ProcessAssignment(cfg, m.state, ev).0
  {
    hide Confirm, ProcessAssignment;
  }

  lemma InitiallyRecorded(cfg: Cfg, height: Height, deadline: Height, w: Trail)
    ensures Recorded(cfg, Exec(cfg, height, deadline, []).m.state, [], w)
  {
  }
}
