/** Block processing of the contract manager: which contracts exist, under which index, at which height. */
module ManagerSpec {
  import opened Collections
  import opened ContractTypes
  import opened ContractSpec

  /** What the parsers make of a transaction. */
  datatype Checkpoint = Checkpoint(entries: seq<AssignedEntry>, l1StartHeight: Height)
  datatype AssignedEntry = AssignedEntry(depositTxid: Txid, entry: DepositEntry)
  datatype RequestQuery = RequestQuery(tx: Tx, depositIdx: nat)
  datatype RequestInfo = NotARequest | InvalidRequest | DepositFor(depositTxid: Txid)
  datatype StakeQuery = StakeQuery(index: nat)

  datatype ManagerCfg = ManagerCfg(
    base: Cfg,
    refundDelay: nat,
    ownChainKnown: bool,
    parseCheckpoint: Tx -> Option<Checkpoint>,
    requestInfo: RequestQuery -> RequestInfo,
    ownStakeTx: StakeQuery -> Option<nat>)

  datatype Contract = Contract(cfg: Cfg, m: Machine)

  datatype ManagerDuty = FromContract(duty: Duty) | PublishDepositSetup(depositTxid: Txid, depositIdx: nat)

  datatype BlockData = BlockData(height: Height, txs: seq<Tx>)

  /** `Failed` is an error returned to the caller, `Crashed` a failed `expect`; both keep what was written. */
  datatype Status = Running | Failed | Crashed

  datatype Progress = Progress(active: map<Txid, Contract>, created: seq<Contract>, duties: seq<ManagerDuty>,
    status: Status)

  function Wrap(duties: seq<Duty>): seq<ManagerDuty> {
    seq(|duties|, i requires 0 <= i < |duties| => FromContract(duties[i]))
  }

  /** Delivers an event to one contract; `lenient` errors are only logged. */
  function Deliver(p: Progress, txid: Txid, ev: Event, lenient: bool): Progress
    requires txid in p.active
  {
    var c := p.active[txid];
    var (m, outcome) := Step(c.cfg, c.m, ev);
    var p' := p.(active := p.active[txid := Contract(c.cfg, m)]);
    match outcome
    case Ok(duties) => p'.(duties := p.duties + Wrap(duties))
    case Rejected => if lenient then p' else p'.(status := Failed)
    case Panic => p'.(status := Crashed)
  }

  // ---------- assignments ----------

  function AssignOne(cfg: ManagerCfg, p: Progress, a: AssignedEntry, l1: Height): Progress {
    if a.depositTxid !in p.active then p.(status := Crashed)
    else
      match cfg.ownStakeTx(StakeQuery(a.entry.idx))
      case None => p
      case Some(stakeTx) => Deliver(p, a.depositTxid, Assignment(a.entry, stakeTx, l1), false)
  }

  function AssignAll(cfg: ManagerCfg, p: Progress, entries: seq<AssignedEntry>, l1: Height): Progress {
    if entries == [] then p
    else
      var before := AssignAll(cfg, p, entries[..|entries| - 1], l1);
      if before.status != Running then before
      else if entries[|entries| - 1].entry.dispatched.None? then before
      else AssignOne(cfg, before, entries[|entries| - 1], l1)
  }

  function Assignments(cfg: ManagerCfg, p: Progress, tx: Tx): Progress {
    match cfg.parseCheckpoint(tx)
    case None => p
    case Some(checkpoint) => AssignAll(cfg, p, checkpoint.entries, checkpoint.l1StartHeight)
  }

  // ---------- deposit requests ----------

  function Indices(active: map<Txid, Contract>): set<nat> {
    set txid | txid in active :: active[txid].cfg.depositIdx
  }

  /** One more than the greatest index in use. */
  function NextIndex(active: map<Txid, Contract>): nat {
    if Indices(active) == {} then 0 else MaxOf(Indices(active)) + 1
  }

  function MaxOf(s: set<nat>): (m: nat)
    requires s != {}
    ensures m in s && forall x | x in s :: x <= m
  {
    var q := Sorted(s);
    LastIsGreatest(q, s);
    q[|q| - 1]
  }

  lemma LastIsGreatest(q: seq<nat>, s: set<nat>)
    requires Lists(q, s) && s != {}
    ensures |q| > 0 && q[|q| - 1] in s && forall x | x in s :: x <= q[|q| - 1]
  {
    var y :| y in s;
    assert y in q;
    assert q[|q| - 1] in q;
    forall x | x in s ensures x <= q[|q| - 1] {
      var i :| 0 <= i < |q| && q[i] == x;
      assert i < |q| - 1 ==> Before(i, |q| - 1);
    }
  }

  function NewContract(cfg: ManagerCfg, height: Height, requestTxid: Txid, depositTxid: Txid, idx: nat): Contract {
    var ccfg := cfg.base.(depositIdx := idx, depositTxid := depositTxid, depositRequestTxid := requestTxid);
    Contract(ccfg, InitialState(ccfg, height, height + cfg.refundDelay))
  }

  // ---------- confirmations ----------

  function StateSummaries(s: ContractState): set<Summary> {
    match s
    case Requested(r) => r.summaries.Values
    case Disproved => {}
    case Resolved(_, _, _, _, _) => {}
    case Aborted => {}
    case _ => set c | c in s.g.pegOutGraphs :: s.g.pegOutGraphs[c].1
  }

  predicate Concerns(cfg: Cfg, g: Summary, tx: Tx) {
    || cfg.depositTxid == tx.txid || g.claimTxid == tx.txid || g.payoutOptimisticTxid == tx.txid
    || g.preAssertTxid == tx.txid || tx.txid in g.assertDataTxids || g.postAssertTxid == tx.txid
    || g.payoutTxid == tx.txid || IsChallenge(g.claimTxid, tx) || IsDisprove(g.postAssertTxid, tx)
  }

  /** Which transactions a contract wants to see. */
  predicate TransactionFilter(c: Contract, tx: Tx) {
    var s := c.m.state;
    || (s.Assigned? && exists o ::
      o in c.cfg.table.operators && c.cfg.isFulfillment(FulfillmentCheck(o.idx, s.recipient, tx)))
    || exists g :: g in StateSummaries(s) && Concerns(c.cfg, g, tx)
  }

  /** Offers a transaction to the listed contracts, stopping at the first error. */
  function OfferAll(p: Progress, txids: seq<Txid>, tx: Tx, height: Height): Progress
    requires forall t | t in txids :: t in p.active
    ensures OfferAll(p, txids, tx, height).active.Keys == p.active.Keys
  {
    if txids == [] then p
    else
      var before := OfferAll(p, txids[..|txids| - 1], tx, height);
      var txid := txids[|txids| - 1];
      if before.status != Running then before
      else if before.active[txid].m.blockHeight >= height || !TransactionFilter(before.active[txid], tx) then before
      else Deliver(before, txid, PegOutGraphConfirmation(tx, height), false)
  }

  function TxStep(cfg: ManagerCfg, offset: nat, p: Progress, tx: Tx, height: Height): Progress {
    var p1 := Assignments(cfg, p, tx);
    if p1.status != Running || |p1.duties| > |p.duties| then p1
    else
      match cfg.requestInfo(RequestQuery(tx, offset + |p1.created|))
      case InvalidRequest => p1
      case DepositFor(depositTxid) =>
        if depositTxid in p1.active then p1
        else if !cfg.ownChainKnown then p1.(status := Crashed)
        else
          var idx := offset + |p1.created|;
          p1.(created := p1.created + [NewContract(cfg, height, tx.txid, depositTxid, idx)],
              duties := p1.duties + [PublishDepositSetup(depositTxid, idx)])
      case NotARequest =>
        if tx.txid in p1.active then
          if p1.active[tx.txid].m.blockHeight >= height then p1
          else Deliver(p1, tx.txid, DepositConfirmation(tx), true)
        else OfferAll(p1, Sorted(p1.active.Keys), tx, height)
  }

  function TxSteps(cfg: ManagerCfg, offset: nat, p: Progress, txs: seq<Tx>, height: Height): Progress {
    if txs == [] then p
    else
      var before := TxSteps(cfg, offset, p, txs[..|txs| - 1], height);
      if before.status != Running then before else TxStep(cfg, offset, before, txs[|txs| - 1], height)
  }

  // ---------- the block itself ----------

  function NotifyAll(p: Progress, txids: seq<Txid>, height: Height): Progress
    requires forall t | t in txids :: t in p.active
    ensures NotifyAll(p, txids, height).active.Keys == p.active.Keys
  {
    if txids == [] then p
    else
      var before := NotifyAll(p, txids[..|txids| - 1], height);
      if before.status != Running then before else Deliver(before, txids[|txids| - 1], Block(height), false)
  }

  /** New contracts are filed under their deposit txid; a later one replaces an earlier one with the same txid. */
  function FileAll(active: map<Txid, Contract>, created: seq<Contract>): map<Txid, Contract> {
    if created == [] then active
    else
      var last := created[|created| - 1];
      FileAll(active, created[..|created| - 1])[last.cfg.depositTxid := last]
  }

  function BlockStep(cfg: ManagerCfg, active: map<Txid, Contract>, block: BlockData): Progress {
    var p := TxSteps(cfg, NextIndex(active), Progress(active, [], [], Running), block.txs, block.height);
    if p.status != Running then p
    else
      var p' := NotifyAll(p, Sorted(p.active.Keys), block.height);
      if p'.status != Running then p' else p'.(active := FileAll(p'.active, p'.created))
  }
}
