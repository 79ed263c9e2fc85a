/** For arbitrary machines, exactly when a rejected event still changes the persisted state. */
module ContractRejections {
  import opened Collections
  import opened ContractTypes
  import opened ContractSpec

  predicate Changed(m: Machine, m': Machine) {
    m'.blockHeight != m.blockHeight || m'.state != m.state
  }

  /** A block that releases one of this node's timelocked transactions finds no signature for it. */
  predicate BlockFindsNoSignature(cfg: Cfg, m: Machine, height: Height) {
    && height == m.blockHeight + 1
    && (m.state.Claimed? || m.state.Challenged? || m.state.Asserted?)
    && m.state.fulfiller == cfg.table.pov
    && height >= (if m.state.Asserted? then m.state.postAssertHeight + cfg.payoutTimelock
                  else m.state.claimHeight +
                         if m.state.Claimed? then cfg.payoutOptimisticTimelock else cfg.preAssertTimelock)
    && m.state.active.1.claimTxid !in m.state.g.graphSigs
  }

  /** The assert-data transaction that completes the set finds no signature for the post-assert. */
  predicate LastAssertFindsNoSignature(cfg: Cfg, s: ContractState, tx: Tx) {
    && s.PreAssertConfirmed? && s.fulfiller == cfg.table.pov
    && tx.txid in s.active.1.assertDataTxids
    && |s.signedAsserts.Keys + {tx.txid}| >= NUM_ASSERT_DATA_TX
    && (tx.txid in s.signedAsserts ==> s.signedAsserts[tx.txid] != tx)
    && s.active.1.claimTxid !in s.g.graphSigs
  }

  /** The nonces that complete all sessions meet a claim whose recorded owner has no stored input. */
  predicate LastNoncesFindNoInput(cfg: Cfg, r: Request, ev: Event)
    requires ev.GraphNonces?
  {
    && Unpacks(ev.nonces) && ev.claim in r.graphNonces && ev.signer !in r.graphNonces[ev.claim]
    && SessionsFull(r.claimTxids, Contribute(r.graphNonces, ev.claim, ev.signer, ev.nonces), cfg.table.Size())
    && exists op :: op in r.claimTxids && OwnerLacksInput(r, op)
  }

  predicate OwnerLacksInput(r: Request, op: OpKey)
    requires op in r.claimTxids
  {
    assert op in Owners(r.claimTxids, r.claimTxids[op]);
    LastOwner(r.claimTxids, r.claimTxids[op]) !in r.inputs
  }

  predicate LateLookupFails(cfg: Cfg, m: Machine, ev: Event) {
    match ev
    case Block(height) => BlockFindsNoSignature(cfg, m, height)
    case PegOutGraphConfirmation(tx, _) => LastAssertFindsNoSignature(cfg, m.state, tx)
    case GraphNonces(_, _, _) => m.state.Requested? && LastNoncesFindNoInput(cfg, m.state.r, ev)
    case _ => false
  }

  /** With all claims aggregated, the signing duties fail exactly on an owner without input. */
  lemma {:induction false} SigningFailsIff(cfg: Cfg, r: Request, pog: map<Txid, Graph>, ops: seq<OpKey>)
    requires forall op | op in ops :: op in r.claimTxids && r.claimTxids[op] in r.aggNonces
    ensures SigningDuties(cfg, r, pog, ops).1.None? <==> exists op :: op in ops && OwnerLacksInput(r, op)
    decreases |ops|
  {
    if ops != [] {
      var last := |ops| - 1;
      SigningFailsIff(cfg, r, pog, ops[..last]);
      assert ops == ops[..last] + [ops[last]];
      assert ops[last] in Owners(r.claimTxids, r.claimTxids[ops[last]]);
      assert SigningDuties(cfg, r, pog, ops).1.None?
        <==> SigningDuties(cfg, r, pog, ops[..last]).1.None? || OwnerLacksInput(r, ops[last]);
    }
  }

  lemma AllSigningFailsIff(cfg: Cfg, r: Request, pog: map<Txid, Graph>)
    requires forall op | op in r.claimTxids :: r.claimTxids[op] in r.aggNonces
    ensures SigningDuties(cfg, r, pog, Sorted(r.claimTxids.Keys)).1.None? <==>
      exists op :: op in r.claimTxids && OwnerLacksInput(r, op)
  {
    hide Owners, LastOwner, OwnerLacksInput, SigningDuties;
    SigningFailsIff(cfg, r, pog, Sorted(r.claimTxids.Keys));
  }

  lemma NoncesRejectedIff(cfg: Cfg, r: Request, pog: map<Txid, Graph>, ev: Event)
    requires ev.GraphNonces?
    ensures var (r', _, outcome) := AddNonces(cfg, r, pog, ev);
      outcome.Rejected? && r' != r <==> LastNoncesFindNoInput(cfg, r, ev)
  {
    hide Sum, Unpacks, Owners, LastOwner, OwnerLacksInput, Sorted, Lists;
    if Unpacks(ev.nonces) && ev.claim in r.graphNonces && ev.signer !in r.graphNonces[ev.claim] {
      var r1 := WithNonces(r, ev);
      assert ev.signer in r1.graphNonces[ev.claim];
      var r2 := WithAggNonces(r1);
      if SessionsFull(r1.claimTxids, r1.graphNonces, cfg.table.Size()) {
        AllSigningFailsIff(cfg, r2, pog);
        SameOwners(r, r2);
      }
    }
  }

  lemma SameOwners(r: Request, r': Request)
    requires r'.claimTxids == r.claimTxids && r'.inputs == r.inputs
    ensures forall op | op in r.claimTxids :: OwnerLacksInput(r', op) == OwnerLacksInput(r, op)
  {
    hide Sorted;
  }

  lemma AssertRejectedIff(cfg: Cfg, s: ContractState, tx: Tx, height: Height)
    ensures var (s', outcome) := Confirm(cfg, s, tx, height);
      outcome.Rejected? && s' != s <==> LastAssertFindsNoSignature(cfg, s, tx)
  {
    hide IsChallenge, IsDisprove, Elems;
    if s.PreAssertConfirmed? && tx.txid in s.active.1.assertDataTxids {
      var signed := s.signedAsserts[tx.txid := tx];
      assert signed.Keys == s.signedAsserts.Keys + {tx.txid};
      assert |signed| == |signed.Keys|;
      assert signed == s.signedAsserts <==> tx.txid in s.signedAsserts && s.signedAsserts[tx.txid] == tx;
    }
  }

  lemma OtherMessagesRejectCleanly(cfg: Cfg, m: Machine, ev: Event)
    requires IsMessage(ev) && !(ev.GraphNonces? && m.state.Requested?)
    ensures var (m', outcome) := ProcessMessage(cfg, m, ev); outcome.Rejected? ==> !Changed(m, m')
  {
    hide Setup, Sum, CanAggregate, ByClaim, SessionsFull, Sorted, VerifyPartials, MinOf, Unpacks, InTableOrder;
  }

  lemma BlockRejectedIff(cfg: Cfg, m: Machine, height: Height)
    ensures var (m', outcome) := ProcessBlock(cfg, m, height);
      outcome.Rejected? && Changed(m, m') <==> BlockFindsNoSignature(cfg, m, height)
  {
  }

  /** For every machine and event: a rejection changes the persisted state if and only if a handler that has
      already written meets one of three late failing lookups.  No reachable state does (`RejectionIsHarmless`). */
  lemma RejectionChangesStateIff(cfg: Cfg, m: Machine, ev: Event)
    ensures var (m', outcome) := Step(cfg, m, ev);
      outcome.Rejected? && Changed(m, m') <==> LateLookupFails(cfg, m, ev)
  {
    hide ProcessBlock, Confirm, AddNonces, BlockFindsNoSignature, LastAssertFindsNoSignature, LastNoncesFindNoInput;
    match ev
    case Block(height) => BlockRejectedIff(cfg, m, height);
    case PegOutGraphConfirmation(tx, height) => AssertRejectedIff(cfg, m.state, tx, height);
    case GraphNonces(_, _, _) =>
      if m.state.Requested? { NoncesRejectedIff(cfg, m.state.r, m.pog, ev); }
    case Assignment(_, _, _) =>
    case DepositConfirmation(_) =>
    case ClaimFailure =>
    case AssertionFailure =>
    case _ => OtherMessagesRejectCleanly(cfg, m, ev);
  }
}
