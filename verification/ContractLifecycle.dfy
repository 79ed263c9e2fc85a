/** The lifecycle of the deposit contract over whole runs, for every configuration and every event sequence. */
module ContractLifecycle {
  import opened ContractTypes
  import opened ContractSpec
  import opened ContractCache
  import opened ContractInvariant

  /** The documented lifecycle. */
  predicate Edge(a: ContractState, b: ContractState) {
    match a
    case Requested(_) => b.Deposited? || b.Aborted?
    case Deposited(_) => b.Assigned?
    case Assigned(_, _, _, _, _, _, _) => b.Assigned? || b.Fulfilled?
    case Fulfilled(_, _, _, _, _, _, _) => b.Claimed?
    case Claimed(_, _, _, _, _, _, _, _) =>
      b.Challenged? || b.PreAssertConfirmed? || (b.Resolved? && b.path.Optimistic?)
    case Challenged(_, _, _, _, _, _, _, _) => b.PreAssertConfirmed?
    case PreAssertConfirmed(_, _, _, _, _, _, _, _, _) => b.PreAssertConfirmed? || b.AssertDataConfirmed?
    case AssertDataConfirmed(_, _, _, _, _, _, _) => b.Asserted?
    case Asserted(_, _, _, _, _, _, _, _) => b.Disproved? || (b.Resolved? && b.path.Contested?)
    case _ => false
  }

  function Rank(s: ContractState): nat {
    match s
    case Requested(_) => 0
    case Deposited(_) => 1
    case Assigned(_, _, _, _, _, _, _) => 2
    case Fulfilled(_, _, _, _, _, _, _) => 3
    case Claimed(_, _, _, _, _, _, _, _) => 4
    case Challenged(_, _, _, _, _, _, _, _) => 5
    case PreAssertConfirmed(_, _, _, _, _, _, _, _, _) => 6
    case AssertDataConfirmed(_, _, _, _, _, _, _) => 7
    case Asserted(_, _, _, _, _, _, _, _) => 8
    case _ => 9
  }

  predicate Final(s: ContractState) {
    s.Resolved? || s.Disproved? || s.Aborted?
  }

  predicate Settled(s: ContractState) {
    HasActive(s) && !s.Assigned?
  }

  /** What moving on keeps: graphs from Deposited on, fulfiller, active graph and fulfilment from Fulfilled on. */
  predicate Keeps(s: ContractState, s': ContractState) {
    && (Final(s) ==> s' == s)
    && (HasGraphs(s) && HasGraphs(s') ==> s'.g == s.g)
    && (Settled(s) && Settled(s') ==>
          s'.fulfiller == s.fulfiller && s'.active == s.active && s'.fulfillmentTxid == s.fulfillmentTxid
          && s'.withdrawalRequestTxid == s.withdrawalRequestTxid)
    && (Settled(s) && s'.Resolved? ==>
          s'.claimTxid == s.active.1.claimTxid && s'.fulfillmentTxid == s.fulfillmentTxid
          && s'.withdrawalRequestTxid == s.withdrawalRequestTxid)
    && Rank(s) <= Rank(s')
  }

  /** Each confirmation handler keeps still or follows an edge. */
  ghost predicate MovesOn(s: ContractState, s': ContractState) {
    (s' == s || Edge(s, s')) && Keeps(s, s') && (s'.Requested? ==> s.Requested?)
  }

  lemma EarlyConfirmMovesForward(cfg: Cfg, s: ContractState, tx: Tx, height: Height)
    ensures s.Assigned? ==> MovesOn(s, ConfirmFulfillment(cfg, s, tx, height).0)
    ensures s.Fulfilled? ==> MovesOn(s, ConfirmClaim(cfg, s, tx, height).0)
    ensures s.Asserted? ==> MovesOn(s, ConfirmAfterAssert(s, tx).0)
  {
    hide IsDisprove;
  }

  lemma ClaimedConfirmMovesForward(cfg: Cfg, s: ContractState, tx: Tx)
    ensures s.Claimed? || s.Challenged? ==> MovesOn(s, ConfirmPreAssert(cfg, s, tx).0)
    ensures s.Claimed? ==> MovesOn(s, ConfirmAfterClaim(cfg, s, tx).0)
  {
    hide IsChallenge;
  }

  lemma AssertConfirmMovesForward(cfg: Cfg, s: ContractState, tx: Tx, height: Height)
    ensures s.PreAssertConfirmed? ==> MovesOn(s, ConfirmAssertData(cfg, s, tx).0)
    ensures s.AssertDataConfirmed? ==> MovesOn(s, ConfirmPostAssert(cfg, s, tx, height).0)
  {
    hide AllSigned;
  }

  /** A confirmation keeps the state still or moves it along an edge. */
  lemma ConfirmMovesForward(cfg: Cfg, s: ContractState, tx: Tx, height: Height)
    ensures MovesOn(s, Confirm(cfg, s, tx, height).0)
  {
    hide ConfirmFulfillment, ConfirmClaim, ConfirmAfterClaim, ConfirmPreAssert, ConfirmAssertData, ConfirmPostAssert;
    hide ConfirmAfterAssert;
    EarlyConfirmMovesForward(cfg, s, tx, height);
    ClaimedConfirmMovesForward(cfg, s, tx);
    AssertConfirmMovesForward(cfg, s, tx, height);
  }

  lemma AssignmentMovesForward(cfg: Cfg, s: ContractState, ev: Event)
    requires ev.Assignment?
    ensures MovesOn(s, ProcessAssignment(cfg, s, ev).0)
  {
  }

  lemma StepMovesForward(cfg: Cfg, m: Machine, ev: Event)
    ensures var s' := Step(cfg, m, ev).0.state;
      && Keeps(m.state, s')
      && (s' == m.state || (m.state.Requested? && s'.Requested?) || Edge(m.state, s'))
      && (s'.Requested? ==> m.state.Requested?)
  {
    hide Setup, AddNonces, AddPartials, AddRootNonce, AddRootPartial, Confirm, ProcessAssignment, CanConfirm;
    hide PairGraphs;
    match ev
    case PegOutGraphConfirmation(tx, height) => ConfirmMovesForward(cfg, m.state, tx, height);
    case Assignment(_, _, _) => AssignmentMovesForward(cfg, m.state, ev);
    case _ =>
  }

  lemma KeepsTransitive(a: ContractState, b: ContractState, c: ContractState)
    requires Keeps(a, b) && Keeps(b, c) && (b.Requested? ==> a.Requested?)
    requires b == c || (b.Requested? && c.Requested?) || Edge(b, c)
    ensures Keeps(a, c)
  {
  }

  /** From any machine on, a run only moves forward: final states are absorbing, graphs and signatures are
      frozen from Deposited on, fulfiller and active graph from Fulfilled on. */
  lemma {:induction false} RunsMoveForward(cfg: Cfg, m: Machine, evs: seq<Event>)
    ensures var s' := Run(cfg, m, evs).state; Keeps(m.state, s') && (s'.Requested? ==> m.state.Requested?)
    decreases |evs|
  {
    hide Step, Edge, Keeps;
    if evs == [] {
      KeepsItself(m.state);
    } else {
      var front := evs[..|evs| - 1];
      RunsMoveForward(cfg, m, front);
      StepMovesForward(cfg, Run(cfg, m, front), evs[|evs| - 1]);
      KeepsTransitive(m.state, Run(cfg, m, front).state, Run(cfg, m, evs).state);
    }
  }

  lemma KeepsItself(s: ContractState)
    ensures Keeps(s, s)
  {
  }

  // ---------- the story of a contested resolution ----------

  predicate ConfirmedAt(evs: seq<Event>, i: int, txid: Txid) {
    0 <= i < |evs| && evs[i].PegOutGraphConfirmation? && evs[i].tx.txid == txid
  }

  /** Confirmed strictly between two positions. */
  predicate ConfirmedWithin(evs: seq<Event>, lo: int, hi: int, txid: Txid) {
    exists k: nat :: lo < k < hi && ConfirmedAt(evs, k, txid)
  }

  lemma StillConfirmed(evs: seq<Event>, ev: Event, lo: int, hi: int, txid: Txid)
    requires ConfirmedWithin(evs, lo, hi, txid)
    ensures ConfirmedWithin(evs + [ev], lo, hi + 1, txid) && ConfirmedWithin(evs + [ev], lo, hi, txid)
  {
    var k: nat :| lo < k < hi && ConfirmedAt(evs, k, txid);
    assert ConfirmedAt(evs + [ev], k, txid);
  }

  lemma ConfirmedEarlier(evs: seq<Event>, ev: Event, lo: int, txid: Txid)
    requires ConfirmedWithin(evs + [ev], lo, |evs| + 1, txid)
    requires ev.PegOutGraphConfirmation? ==> ev.tx.txid != txid
    ensures ConfirmedWithin(evs, lo, |evs|, txid)
  {
    var k: nat :| lo < k < |evs| + 1 && ConfirmedAt(evs + [ev], k, txid);
    assert ConfirmedAt(evs, k, txid);
  }

  /** Where the steps of a contested withdrawal were confirmed. */
  datatype Story = Story(claim: nat, preAssert: nat, postAssert: nat)

  ghost predicate Told(s: ContractState, evs: seq<Event>, w: Story) {
    && (s.Claimed? || s.Challenged? ==> ConfirmedAt(evs, w.claim, s.active.1.claimTxid))
    && (s.PreAssertConfirmed? || s.AssertDataConfirmed? ==>
          && PreAsserted(s.active.1, evs, w)
          && forall t | t in s.signedAsserts :: ConfirmedWithin(evs, w.preAssert, |evs|, t))
    && (s.PreAssertConfirmed? ==>
          forall t | t in s.active.1.assertDataTxids && ConfirmedWithin(evs, w.preAssert, |evs|, t) ::
            t in s.signedAsserts)
    && (s.Asserted? ==> PostAsserted(s.active.1, evs, w))
  }

  ghost predicate PreAsserted(graph: Summary, evs: seq<Event>, w: Story) {
    && ConfirmedAt(evs, w.claim, graph.claimTxid)
    && ConfirmedAt(evs, w.preAssert, graph.preAssertTxid)
    && w.claim < w.preAssert
  }

  /** Claim, pre-assert, every assert-data and post-assert were confirmed in this order. */
  ghost predicate PostAsserted(graph: Summary, evs: seq<Event>, w: Story) {
    && PreAsserted(graph, evs, w)
    && ConfirmedAt(evs, w.postAssert, graph.postAssertTxid)
    && w.preAssert < w.postAssert
    && forall t | t in graph.assertDataTxids :: ConfirmedWithin(evs, w.preAssert, w.postAssert, t)
  }

  lemma PreAssertedStays(graph: Summary, evs: seq<Event>, ev: Event, w: Story)
    requires PreAsserted(graph, evs, w)
    ensures PreAsserted(graph, evs + [ev], w)
  {
  }

  lemma PostAssertedStays(graph: Summary, evs: seq<Event>, ev: Event, w: Story)
    requires PostAsserted(graph, evs, w)
    ensures PostAsserted(graph, evs + [ev], w)
  {
    PreAssertedStays(graph, evs, ev, w);
    forall t | t in graph.assertDataTxids ensures ConfirmedWithin(evs + [ev], w.preAssert, w.postAssert, t) {
      StillConfirmed(evs, ev, w.preAssert, w.postAssert, t);
    }
  }

  lemma ToldStays(s: ContractState, evs: seq<Event>, ev: Event, w: Story)
    requires Told(s, evs, w)
    requires s.PreAssertConfirmed? && ev.PegOutGraphConfirmation? ==> ev.tx.txid !in s.active.1.assertDataTxids
    ensures Told(s, evs + [ev], w)
  {
    hide PreAsserted, PostAsserted, ConfirmedWithin;
    if s.PreAssertConfirmed? || s.AssertDataConfirmed? {
      PreAssertedStays(s.active.1, evs, ev, w);
      forall t | t in s.signedAsserts ensures ConfirmedWithin(evs + [ev], w.preAssert, |evs + [ev]|, t) {
        StillConfirmed(evs, ev, w.preAssert, |evs|, t);
      }
      forall t | t in s.active.1.assertDataTxids && ConfirmedWithin(evs + [ev], w.preAssert, |evs + [ev]|, t)
        ensures s.PreAssertConfirmed? ==> t in s.signedAsserts
      {
        if s.PreAssertConfirmed? { ConfirmedEarlier(evs, ev, w.preAssert, t); }
      }
    } else if s.Asserted? {
      PostAssertedStays(s.active.1, evs, ev, w);
    }
  }

  /** Each confirmation that moves the contract on adds its position to the story. */
  lemma ConfirmTells(cfg: Cfg, s: ContractState, evs: seq<Event>, tx: Tx, height: Height, w: Story) returns (w': Story)
    requires Told(s, evs, w)
    ensures Told(Confirm(cfg, s, tx, height).0, evs + [PegOutGraphConfirmation(tx, height)], w')
  {
    var ev := PegOutGraphConfirmation(tx, height);
    var s' := Confirm(cfg, s, tx, height).0;
    var now := |evs|;
    w' := w;
    if s.PreAssertConfirmed? && tx.txid in s.active.1.assertDataTxids {
      AssertTold(cfg, s, evs, tx, height, w);
      return;
    }
    ToldStays(s, evs, ev, w);
    if s.Fulfilled? && s'.Claimed? {
      w' := w.(claim := now);
    } else if (s.Claimed? || s.Challenged?) && s'.PreAssertConfirmed? {
      w' := w.(preAssert := now);
    } else if s.AssertDataConfirmed? && s'.Asserted? {
      w' := w.(postAssert := now);
      PostAssertTold(cfg, s, evs, tx, height, w);
    }
  }

  lemma AssertTold(cfg: Cfg, s: ContractState, evs: seq<Event>, tx: Tx, height: Height, w: Story)
    requires s.PreAssertConfirmed? && tx.txid in s.active.1.assertDataTxids && Told(s, evs, w)
    ensures Told(ConfirmAssertData(cfg, s, tx).0, evs + [PegOutGraphConfirmation(tx, height)], w)
  {
    hide PreAsserted, ConfirmedWithin;
    var ev := PegOutGraphConfirmation(tx, height);
    PreAssertedStays(s.active.1, evs, ev, w);
    var s' := ConfirmAssertData(cfg, s, tx).0;
    forall t | t in s'.signedAsserts ensures ConfirmedWithin(evs + [ev], w.preAssert, |evs + [ev]|, t) {
      if t == tx.txid {
        JustConfirmed(s.active.1, evs, tx, height, w);
      } else {
        StillConfirmed(evs, ev, w.preAssert, |evs|, t);
      }
    }
    forall t | t in s.active.1.assertDataTxids && ConfirmedWithin(evs + [ev], w.preAssert, |evs + [ev]|, t)
      ensures t in s'.signedAsserts
    {
      if t != tx.txid { ConfirmedEarlier(evs, ev, w.preAssert, t); }
    }
  }

  lemma JustConfirmed(graph: Summary, evs: seq<Event>, tx: Tx, height: Height, w: Story)
    requires PreAsserted(graph, evs, w)
    ensures ConfirmedWithin(evs + [PegOutGraphConfirmation(tx, height)], w.preAssert, |evs| + 1, tx.txid)
  {
    assert ConfirmedAt(evs + [PegOutGraphConfirmation(tx, height)], |evs|, tx.txid);
  }

  lemma PostAssertTold(cfg: Cfg, s: ContractState, evs: seq<Event>, tx: Tx, height: Height, w: Story)
    requires s.AssertDataConfirmed? && Told(s, evs, w) && ConfirmPostAssert(cfg, s, tx, height).0.Asserted?
    ensures PostAsserted(s.active.1, evs + [PegOutGraphConfirmation(tx, height)], w.(postAssert := |evs|))
  {
    hide ConfirmedWithin;
    var ev := PegOutGraphConfirmation(tx, height);
    forall t | t in s.active.1.assertDataTxids ensures ConfirmedWithin(evs + [ev], w.preAssert, |evs|, t) {
      assert t in s.signedAsserts;
      StillConfirmed(evs, ev, w.preAssert, |evs|, t);
    }
  }

  /** Other events leave the told states alone. */
  lemma OtherEventsTell(cfg: Cfg, m: Machine, evs: seq<Event>, ev: Event, w: Story)
    requires Told(m.state, evs, w) && !ev.PegOutGraphConfirmation?
    ensures Told(Step(cfg, m, ev).0.state, evs + [ev], w)
  {
    hide Setup, AddNonces, AddPartials, AddRootNonce, AddRootPartial, CanConfirm, PairGraphs, PreAsserted;
    hide PostAsserted, ConfirmedWithin;
    ToldStays(m.state, evs, ev, w);
  }

  /** In every reachable state the confirmations leading there are found in the run, in order. */
  lemma {:induction false} EveryRunTells(cfg: Cfg, height: Height, deadline: Height, evs: seq<Event>) returns (w: Story)
    ensures Told(Run(cfg, InitialState(cfg, height, deadline), evs).state, evs, w)
    decreases |evs|
  {
    hide Step, Confirm, Told;
    var m0 := InitialState(cfg, height, deadline);
    if evs == [] {
      w := Story(0, 0, 0);
      InitiallyTold(cfg, height, deadline, w);
    } else {
      var front, ev := evs[..|evs| - 1], evs[|evs| - 1];
      assert evs == front + [ev];
      w := EveryRunTells(cfg, height, deadline, front);
      var m := Run(cfg, m0, front);
      if ev.PegOutGraphConfirmation? {
        w := ConfirmTells(cfg, m.state, front, ev.tx, ev.height, w);
        ConfirmationStep(cfg, m, ev);
      } else {
        OtherEventsTell(cfg, m, front, ev, w);
      }
    }
  }

  lemma InitiallyTold(cfg: Cfg, height: Height, deadline: Height, w: Story)
    ensures Told(InitialState(cfg, height, deadline).state, [], w)
  {
  }

  lemma ConfirmationStep(cfg: Cfg, m: Machine, ev: Event)
    requires ev.PegOutGraphConfirmation?
    ensures Step(cfg, m, ev).0.state == Confirm(cfg, m.state, ev.tx, ev.height).0
  {
    hide Confirm;
  }

  /** A contested resolution was earned: at some point of the run the contract was Asserted with the fulfiller's
      claim, pre-assert, all assert-data and post-assert confirmed in this order, and then the payout confirmed. */
  lemma {:induction false} ContestedResolutionWasEarned(cfg: Cfg, height: Height, deadline: Height, evs: seq<Event>)
    returns (p: nat, w: Story)
    requires var s := Run(cfg, InitialState(cfg, height, deadline), evs).state; s.Resolved? && s.path.Contested?
    ensures p < |evs|
    ensures var s := Run(cfg, InitialState(cfg, height, deadline), evs).state;
            var before := Run(cfg, InitialState(cfg, height, deadline), evs[..p]).state;
      && before.Asserted?
      && PostAsserted(before.active.1, evs[..p], w)
      && ConfirmedAt(evs, p, before.active.1.payoutTxid)
      && s == Resolved(before.active.1.claimTxid, before.withdrawalRequestTxid, before.fulfillmentTxid,
                       before.active.1.payoutTxid, Contested)
    decreases |evs|
  {
    hide Step, PostAsserted;
    var m0 := InitialState(cfg, height, deadline);
    InitiallyRequested(cfg, height, deadline);
    var front, ev := evs[..|evs| - 1], evs[|evs| - 1];
    var m := Run(cfg, m0, front);
    ResolvingStep(cfg, m, ev);
    if m.state.Resolved? {
      StepMovesForward(cfg, m, ev);
      p, w := ContestedResolutionWasEarned(cfg, height, deadline, front);
      assert evs[..p] == front[..p];
    } else {
      p := |evs| - 1;
      w := EveryRunTells(cfg, height, deadline, front);
    }
  }

  lemma InitiallyRequested(cfg: Cfg, height: Height, deadline: Height)
    ensures InitialState(cfg, height, deadline).state.Requested?
  {
  }

  /** Only the payout of an Asserted contract resolves it as contested. */
  lemma ResolvingStep(cfg: Cfg, m: Machine, ev: Event)
    requires var s' := Step(cfg, m, ev).0.state; s'.Resolved? && s'.path.Contested?
    ensures m.state.Resolved? || m.state.Asserted?
    ensures m.state.Asserted? ==>
      && ev.PegOutGraphConfirmation? && ev.tx.txid == m.state.active.1.payoutTxid
      && Step(cfg, m, ev).0.state == Resolved(m.state.active.1.claimTxid, m.state.withdrawalRequestTxid,
                                              m.state.fulfillmentTxid, m.state.active.1.payoutTxid, Contested)
  {
    hide Setup, AddNonces, AddPartials, AddRootNonce, AddRootPartial, CanConfirm, PairGraphs, IsChallenge;
    hide IsDisprove, AllSigned;
  }
}
