/** The transaction filter never withholds a transaction that would move a contract. */
module ManagerRouting {
  import opened Collections
  import opened ContractTypes
  import opened ContractSpec
  import opened ContractInvariant
  import opened ContractRuns
  import opened ManagerSpec

  lemma ActiveIsListed(cfg: Cfg, s: ContractState)
    requires HasActive(s) && LifeOk(cfg, s)
    ensures s.active.1 in StateSummaries(s)
  {
    hide GraphsOk, AssertsOk;
    var key := cfg.table.KeyOfIdx(s.fulfiller).value;
    assert s.g.claimTxids[key] in s.g.pegOutGraphs;
  }

  /** A confirmation that moves an assigned contract on fulfils the withdrawal for an operator in the table. */
  lemma FulfillmentPasses(c: Contract, tx: Tx, height: Height)
    requires c.m.state.Assigned? && LifeOk(c.cfg, c.m.state)
    requires Confirm(c.cfg, c.m.state, tx, height).0 != c.m.state
    ensures TransactionFilter(c, tx)
  {
    hide GraphsOk, AssertsOk, StateSummaries, Concerns;
    var s := c.m.state;
    var o :| o in c.cfg.table.operators && o.idx == s.fulfiller;
    assert c.cfg.isFulfillment(FulfillmentCheck(o.idx, s.recipient, tx));
  }

  lemma MovingTxConcerns(cfg: Cfg, s: ContractState, tx: Tx, height: Height)
    requires HasActive(s) && !s.Assigned? && Confirm(cfg, s, tx, height).0 != s
    ensures Concerns(cfg, s.active.1, tx)
  {
    hide IsChallenge, IsDisprove, AllSigned;
  }

  /** In a contract that keeps its invariant, whatever confirmation would change its state passes its filter. */
  lemma FilterIsComplete(c: Contract, tx: Tx, height: Height)
    requires !c.m.state.Requested? ==> LifeOk(c.cfg, c.m.state)
    requires Confirm(c.cfg, c.m.state, tx, height).0 != c.m.state
    ensures TransactionFilter(c, tx)
  {
    hide LifeOk, Confirm, StateSummaries, Concerns;
    var s := c.m.state;
    if !HasActive(s) {
      OthersIgnore(c.cfg, s, tx, height);
    } else if s.Assigned? {
      FulfillmentPasses(c, tx, height);
    } else {
      MovingTxConcerns(c.cfg, s, tx, height);
      ActiveIsListed(c.cfg, s);
    }
  }

  lemma OthersIgnore(cfg: Cfg, s: ContractState, tx: Tx, height: Height)
    requires !HasActive(s)
    ensures Confirm(cfg, s, tx, height).0 == s
  {
  }

  function GraphTxids(g: Summary): set<Txid> {
    {g.claimTxid, g.payoutOptimisticTxid, g.preAssertTxid, g.postAssertTxid, g.payoutTxid} + Elems(g.assertDataTxids)
  }

  predicate FulfilsForSomeone(c: Contract, tx: Tx) {
    c.m.state.Assigned? && exists i | 0 <= i < |c.cfg.table.operators| ::
      c.cfg.isFulfillment(FulfillmentCheck(c.cfg.table.operators[i].idx, c.m.state.recipient, tx))
  }

  predicate Touches(cfg: Cfg, g: Summary, tx: Tx) {
    || tx.txid in GraphTxids(g) + {cfg.depositTxid} || IsChallenge(g.claimTxid, tx)
    || IsDisprove(g.postAssertTxid, tx)
  }

  /** The filter passes exactly the deposit, the transactions of the contract's graphs, their challenges and disproofs,
      and, while assigned, what would fulfil the withdrawal for an operator in the table. */
  lemma FilterExact(c: Contract, tx: Tx)
    ensures TransactionFilter(c, tx) <==>
      || FulfilsForSomeone(c, tx)
      || exists g :: g in StateSummaries(c.m.state) && Touches(c.cfg, g, tx)
  {
    hide IsChallenge, IsDisprove, StateSummaries;
    var s, ops := c.m.state, c.cfg.table.operators;
    if s.Assigned? && exists o :: o in ops && c.cfg.isFulfillment(FulfillmentCheck(o.idx, s.recipient, tx)) {
      var o :| o in ops && c.cfg.isFulfillment(FulfillmentCheck(o.idx, s.recipient, tx));
      var i :| 0 <= i < |ops| && ops[i] == o;
    }
    forall g ensures Concerns(c.cfg, g, tx) <==> Touches(c.cfg, g, tx) { }
  }

  /** In every reachable state of a contract, a confirmation its filter withholds would have changed nothing and asked
      for nothing. */
  lemma WithheldMeansIrrelevant(cfg: Cfg, env: Env, height: Height, deadline: Height, evs: seq<Event>, tx: Tx,
      at: Height)
    requires CfgOk(cfg, env) && AdmissibleRun(cfg, env, height, deadline, evs)
    ensures var m := Exec(cfg, height, deadline, evs).m;
      !TransactionFilter(Contract(cfg, m), tx) ==>
        var (m', outcome) := Step(cfg, m, PegOutGraphConfirmation(tx, at));
        m' == m && (outcome.Ok? ==> outcome.duties == [])
  {
    hide CfgOk, RequestOk, LifeOk, Exec, AdmissibleRun, TransactionFilter, Confirm;
    ReachableInvariant(cfg, env, height, deadline, evs);
    var m := Exec(cfg, height, deadline, evs).m;
    if Confirm(cfg, m.state, tx, at).0 != m.state { FilterIsComplete(Contract(cfg, m), tx, at); }
    UnchangedAsksNothing(cfg, m.state, tx, at);
  }

  lemma UnchangedAsksNothing(cfg: Cfg, s: ContractState, tx: Tx, height: Height)
    ensures var (s', outcome) := Confirm(cfg, s, tx, height); s' == s && outcome.Ok? ==> outcome.duties == []
  {
    hide IsChallenge, IsDisprove, AllSigned;
  }
}
