/** From an empty start, successful blocks keep deposit indices gap-free and all contracts at one height. */
module ManagerInvariant {
  import opened Collections
  import opened ContractTypes
  import opened ContractSpec
  import opened ManagerSpec

  /** The indices in use are exactly 0 .. n-1 for n contracts, so none is missing and none used twice. */
  ghost predicate Indexed(active: map<Txid, Contract>) {
    Indices(active) == Below(|active|)
  }

  /** Every contract is filed under its deposit txid. */
  ghost predicate Filed(active: map<Txid, Contract>) {
    forall txid | txid in active :: active[txid].cfg.depositTxid == txid
  }

  ghost predicate AtHeight(active: map<Txid, Contract>, height: Height) {
    forall txid | txid in active :: active[txid].m.blockHeight == height
  }

  /** A contract still waiting for its deposit is strictly below its abort deadline. */
  predicate InTime(m: Machine) {
    m.state.Requested? ==> m.blockHeight < m.state.r.abortDeadline
  }

  ghost predicate AllInTime(active: map<Txid, Contract>) {
    forall txid | txid in active :: InTime(active[txid].m)
  }

  /** Same contracts, same configuration, same heights; their states may have moved. */
  ghost predicate SameContracts(a: map<Txid, Contract>, b: map<Txid, Contract>) {
    && a.Keys == b.Keys
    && forall txid | txid in a :: a[txid].cfg == b[txid].cfg && a[txid].m.blockHeight == b[txid].m.blockHeight
  }

  /** Contracts created by a block: consecutive indices, fresh states, deposit txids not in use. */
  ghost predicate Consecutive(cfg: ManagerCfg, active: map<Txid, Contract>, created: seq<Contract>, offset: nat,
      height: Height) {
    forall i | 0 <= i < |created| :: Created(cfg, active, created[i], offset + i, height)
  }

  ghost predicate Created(cfg: ManagerCfg, active: map<Txid, Contract>, c: Contract, idx: nat, height: Height) {
    && c.cfg.depositIdx == idx
    && c.cfg.depositTxid !in active
    && c.m == InitialState(c.cfg, height, height + cfg.refundDelay)
  }

  // ---------- events keep contracts in place ----------

  lemma EventKeepsHeight(cfg: Cfg, m: Machine, ev: Event)
    requires !ev.Block?
    ensures Step(cfg, m, ev).0.blockHeight == m.blockHeight
  {
    hide Setup, AddNonces, AddPartials, AddRootNonce, AddRootPartial, Confirm, ProcessAssignment, CanConfirm;
    hide PairGraphs;
  }

  lemma DeliverKeeps(p: Progress, txid: Txid, ev: Event, lenient: bool)
    requires txid in p.active && !ev.Block?
    ensures SameContracts(p.active, Deliver(p, txid, ev, lenient).active)
    ensures Deliver(p, txid, ev, lenient).created == p.created
  {
    hide Step;
    EventKeepsHeight(p.active[txid].cfg, p.active[txid].m, ev);
  }

  lemma {:induction false} AssignKeeps(cfg: ManagerCfg, p: Progress, entries: seq<AssignedEntry>, l1: Height)
    ensures var p' := AssignAll(cfg, p, entries, l1); SameContracts(p.active, p'.active) && p'.created == p.created
    decreases |entries|
  {
    hide Deliver;
    if entries != [] {
      var front, last := entries[..|entries| - 1], entries[|entries| - 1];
      AssignKeeps(cfg, p, front, l1);
      var before := AssignAll(cfg, p, front, l1);
      if last.depositTxid in before.active {
        match cfg.ownStakeTx(StakeQuery(last.entry.idx))
        case None =>
        case Some(stakeTx) => DeliverKeeps(before, last.depositTxid, Assignment(last.entry, stakeTx, l1), false);
      }
    }
  }

  lemma {:induction false} OfferKeeps(p: Progress, txids: seq<Txid>, tx: Tx, height: Height)
    requires forall t | t in txids :: t in p.active
    ensures var p' := OfferAll(p, txids, tx, height); SameContracts(p.active, p'.active) && p'.created == p.created
    decreases |txids|
  {
    hide Deliver, TransactionFilter;
    if txids != [] {
      var front, last := txids[..|txids| - 1], txids[|txids| - 1];
      assert last in txids;
      OfferKeeps(p, front, tx, height);
      DeliverKeeps(OfferAll(p, front, tx, height), last, PegOutGraphConfirmation(tx, height), false);
    }
  }

  lemma AssignmentsKeep(cfg: ManagerCfg, p: Progress, tx: Tx)
    ensures var p' := Assignments(cfg, p, tx); SameContracts(p.active, p'.active) && p'.created == p.created
  {
    hide AssignAll;
    match cfg.parseCheckpoint(tx)
    case None =>
    case Some(checkpoint) => AssignKeeps(cfg, p, checkpoint.entries, checkpoint.l1StartHeight);
  }

  lemma ConsecutiveFrame(cfg: ManagerCfg, a: map<Txid, Contract>, b: map<Txid, Contract>, created: seq<Contract>,
      offset: nat, height: Height)
    requires Consecutive(cfg, a, created, offset, height) && a.Keys == b.Keys
    ensures Consecutive(cfg, b, created, offset, height)
  {
    hide InitialState;
    forall i | 0 <= i < |created| ensures Created(cfg, b, created[i], offset + i, height) {
      assert Created(cfg, a, created[i], offset + i, height);
    }
  }

  lemma ConsecutiveAppend(cfg: ManagerCfg, active: map<Txid, Contract>, created: seq<Contract>, offset: nat,
      height: Height, requestTxid: Txid, depositTxid: Txid)
    requires Consecutive(cfg, active, created, offset, height) && depositTxid !in active
    ensures Consecutive(cfg, active,
      created + [NewContract(cfg, height, requestTxid, depositTxid, offset + |created|)], offset, height)
  {
    hide InitialState, Created;
    var c := NewContract(cfg, height, requestTxid, depositTxid, offset + |created|);
    NewIsCreated(cfg, active, height, requestTxid, depositTxid, offset + |created|);
    forall i | 0 <= i < |created + [c]| ensures Created(cfg, active, (created + [c])[i], offset + i, height) {
      if i < |created| { assert Created(cfg, active, created[i], offset + i, height); }
    }
  }

  lemma NewIsCreated(cfg: ManagerCfg, active: map<Txid, Contract>, height: Height, requestTxid: Txid,
      depositTxid: Txid, idx: nat)
    requires depositTxid !in active
    ensures Created(cfg, active, NewContract(cfg, height, requestTxid, depositTxid, idx), idx, height)
  {
  }

  lemma TxStepKeeps(cfg: ManagerCfg, offset: nat, p: Progress, tx: Tx, height: Height)
    requires Consecutive(cfg, p.active, p.created, offset, height)
    ensures var p' := TxStep(cfg, offset, p, tx, height);
      SameContracts(p.active, p'.active) && Consecutive(cfg, p'.active, p'.created, offset, height)
  {
    hide Deliver, OfferAll, Assignments, Sorted, NewContract, Consecutive;
    var p1 := Assignments(cfg, p, tx);
    AssignmentsKeep(cfg, p, tx);
    var p' := TxStep(cfg, offset, p, tx, height);
    match cfg.requestInfo(RequestQuery(tx, offset + |p1.created|)) {
      case InvalidRequest =>
      case DepositFor(depositTxid) =>
        if depositTxid !in p1.active {
          ConsecutiveAppend(cfg, p.active, p.created, offset, height, tx.txid, depositTxid);
        }
      case NotARequest =>
        if tx.txid in p1.active {
          DeliverKeeps(p1, tx.txid, DepositConfirmation(tx), true);
        } else {
          OfferKeeps(p1, Sorted(p1.active.Keys), tx, height);
        }
    }
    ConsecutiveFrame(cfg, p.active, p'.active, p'.created, offset, height);
  }

  lemma {:induction false} TxStepsKeep(cfg: ManagerCfg, offset: nat, p: Progress, txs: seq<Tx>, height: Height)
    requires Consecutive(cfg, p.active, p.created, offset, height)
    ensures var p' := TxSteps(cfg, offset, p, txs, height);
      SameContracts(p.active, p'.active) && Consecutive(cfg, p'.active, p'.created, offset, height)
    decreases |txs|
  {
    hide TxStep, Consecutive;
    if txs != [] {
      var front := txs[..|txs| - 1];
      TxStepsKeep(cfg, offset, p, front, height);
      TxStepKeeps(cfg, offset, TxSteps(cfg, offset, p, front, height), txs[|txs| - 1], height);
    }
  }

  // ---------- the block event ----------

  lemma BlockArrives(cfg: Cfg, m: Machine, height: Height)
    requires Step(cfg, m, Block(height)).1.Ok?
    ensures var m' := Step(cfg, m, Block(height)).0; m'.blockHeight == height && InTime(m')
  {
  }

  /** The contracts notified so far are at the block's height, below their deadlines. */
  ghost predicate Notified(active: map<Txid, Contract>, txids: seq<Txid>, height: Height) {
    forall txid | txid in txids :: txid in active && active[txid].m.blockHeight == height && InTime(active[txid].m)
  }

  lemma {:induction false} NotifyArrives(p: Progress, txids: seq<Txid>, height: Height)
    requires forall t | t in txids :: t in p.active
    ensures var p' := NotifyAll(p, txids, height);
      && p'.created == p.created && p'.active.Keys == p.active.Keys
      && (forall txid | txid in p.active :: p'.active[txid].cfg == p.active[txid].cfg)
      && (p.status == Running && p'.status == Running ==> Notified(p'.active, txids, height))
    decreases |txids|
  {
    hide Step;
    if txids != [] {
      var front, last := txids[..|txids| - 1], txids[|txids| - 1];
      assert last in txids && txids == front + [last];
      NotifyArrives(p, front, height);
      var before := NotifyAll(p, front, height);
      var c := before.active[last];
      if Step(c.cfg, c.m, Block(height)).1.Ok? { BlockArrives(c.cfg, c.m, height); }
    }
  }

  // ---------- filing the new contracts ----------

  function Txids(created: seq<Contract>): seq<Txid> {
    seq(|created|, i requires 0 <= i < |created| => created[i].cfg.depositTxid)
  }

  lemma {:induction false} FiledKeys(active: map<Txid, Contract>, created: seq<Contract>)
    ensures FileAll(active, created).Keys == active.Keys + Elems(Txids(created))
    decreases |created|
  {
    if created != [] {
      var front, last := created[..|created| - 1], created[|created| - 1];
      FiledKeys(active, front);
      assert Txids(created) == Txids(front) + [last.cfg.depositTxid];
    }
  }

  /** Filing distinct new contracts continues the numbering. */
  lemma {:induction false} FilingContinues(cfg: ManagerCfg, active: map<Txid, Contract>, created: seq<Contract>,
      height: Height)
    requires Indexed(active) && Consecutive(cfg, active, created, |active|, height) && NoDup(Txids(created))
    ensures Indexed(FileAll(active, created)) && |FileAll(active, created)| == |active| + |created|
    decreases |created|
  {
    hide InitialState;
    if created != [] {
      var last := |created| - 1;
      var front, c := created[..last], created[last];
      FrontOfDistinct(created);
      ConsecutiveFront(cfg, active, created, |active|, height);
      FilingContinues(cfg, active, front, height);
      FiledKeys(active, front);
      assert Created(cfg, active, created[last], |active| + last, height);
      NotFiledYet(active, created);
      FilingOne(FileAll(active, front), c);
    }
  }

  lemma ConsecutiveFront(cfg: ManagerCfg, active: map<Txid, Contract>, created: seq<Contract>, offset: nat,
      height: Height)
    requires Consecutive(cfg, active, created, offset, height) && created != []
    ensures Consecutive(cfg, active, created[..|created| - 1], offset, height)
  {
    hide Created;
    var front := created[..|created| - 1];
    forall i | 0 <= i < |front| ensures Created(cfg, active, front[i], offset + i, height) {
      assert Created(cfg, active, created[i], offset + i, height);
    }
  }

  lemma FrontOfDistinct(created: seq<Contract>)
    requires created != [] && NoDup(Txids(created))
    ensures NoDup(Txids(created[..|created| - 1]))
    ensures created[|created| - 1].cfg.depositTxid !in Elems(Txids(created[..|created| - 1]))
  {
    var last := |created| - 1;
    var all, front := Txids(created), Txids(created[..last]);
    assert forall i | 0 <= i < |front| :: front[i] == all[i];
    forall i: nat, j: nat | i < |front| && j < |front| && Before(i, j) ensures front[i] != front[j] {
      assert all[i] != all[j];
    }
    forall i: nat | i < |front| ensures front[i] != all[last] { assert Before(i, last); }
  }

  lemma NotFiledYet(active: map<Txid, Contract>, created: seq<Contract>)
    requires created != [] && NoDup(Txids(created)) && created[|created| - 1].cfg.depositTxid !in active
    ensures created[|created| - 1].cfg.depositTxid !in FileAll(active, created[..|created| - 1])
  {
    FrontOfDistinct(created);
    FiledKeys(active, created[..|created| - 1]);
  }

  lemma IndicesOne(active: map<Txid, Contract>, c: Contract)
    requires c.cfg.depositTxid !in active
    ensures Indices(active[c.cfg.depositTxid := c]) == Indices(active) + {c.cfg.depositIdx}
  {
    var active' := active[c.cfg.depositTxid := c];
    forall i ensures i in Indices(active') <==> i in Indices(active) || i == c.cfg.depositIdx {
      if i in Indices(active) {
        var txid :| txid in active && active[txid].cfg.depositIdx == i;
        assert active'[txid].cfg.depositIdx == i;
      }
      assert active'[c.cfg.depositTxid].cfg.depositIdx == c.cfg.depositIdx;
      if i in Indices(active') {
        var txid :| txid in active' && active'[txid].cfg.depositIdx == i;
        assert txid == c.cfg.depositTxid || txid in active;
      }
    }
  }

  lemma FilingOne(active: map<Txid, Contract>, c: Contract)
    requires Indexed(active) && c.cfg.depositTxid !in active && c.cfg.depositIdx == |active|
    ensures var active' := active[c.cfg.depositTxid := c]; Indexed(active') && |active'| == |active| + 1
  {
    hide Indices;
    IndicesOne(active, c);
    NewKey(active, c.cfg.depositTxid, c);
  }

  lemma {:induction false} FewerThanListed(q: seq<Txid>)
    ensures |Elems(q)| <= |q| && (|Elems(q)| == |q| ==> NoDup(q))
    decreases |q|
  {
    if q != [] {
      var last := |q| - 1;
      var front := q[..last];
      FewerThanListed(front);
      assert Elems(q) == Elems(front) + {q[last]};
      if |Elems(q)| == |q| {
        assert q[last] !in Elems(front);
        forall i: nat, j: nat | i < |q| && j < |q| && Before(i, j) ensures q[i] != q[j] {
          if j < last { assert front[i] != front[j]; } else { assert front[i] in Elems(front); }
        }
      }
    }
  }

  /** The numbering stays gap-free if and only if the block's deposit requests lead to distinct deposits. */
  lemma NumberingContinuesIff(cfg: ManagerCfg, active: map<Txid, Contract>, created: seq<Contract>, height: Height)
    requires Indexed(active) && Consecutive(cfg, active, created, |active|, height)
    ensures Indexed(FileAll(active, created)) <==> NoDup(Txids(created))
  {
    hide InitialState, Indices, FileAll;
    if NoDup(Txids(created)) {
      FilingContinues(cfg, active, created, height);
    } else {
      var last := |created| - 1;
      assert created != [];
      var filed := FileAll(active, created);
      FiledKeys(active, created);
      FewerThanListed(Txids(created));
      UnionSize(active.Keys, Elems(Txids(created)));
      assert |filed| == |filed.Keys| && |filed| < |active| + |created|;
      assert Created(cfg, active, created[last], |active| + last, height);
      LastIsFiled(active, created);
    }
  }

  lemma LastIsFiled(active: map<Txid, Contract>, created: seq<Contract>)
    requires created != []
    ensures created[|created| - 1].cfg.depositIdx in Indices(FileAll(active, created))
  {
    var last := created[|created| - 1];
    assert FileAll(active, created)[last.cfg.depositTxid] == last;
  }

  lemma UnionSize<T>(a: set<T>, b: set<T>)
    ensures |a + b| <= |a| + |b|
  {
    assert a + b == a + (b - a);
    assert |b - a| <= |b| by { assert b == (b - a) + (b * a); }
  }

  lemma NextIndexIsCount(active: map<Txid, Contract>)
    requires Indexed(active)
    ensures NextIndex(active) == |active|
  {
    if |active| > 0 { assert |active| - 1 in Indices(active); }
  }

  // ---------- one block ----------

  lemma {:induction false} FiledInStep(cfg: ManagerCfg, active: map<Txid, Contract>, created: seq<Contract>,
      offset: nat, height: Height)
    requires Filed(active) && AtHeight(active, height) && Consecutive(cfg, active, created, offset, height)
    ensures Filed(FileAll(active, created)) && AtHeight(FileAll(active, created), height)
    ensures AllInTime(active) && cfg.refundDelay > 0 ==> AllInTime(FileAll(active, created))
    decreases |created|
  {
    if created != [] {
      var last := |created| - 1;
      ConsecutiveFront(cfg, active, created, offset, height);
      FiledInStep(cfg, active, created[..last], offset, height);
      assert Created(cfg, active, created[last], offset + last, height);
    }
  }

  /** With no refund delay the last contract created sits at its own deadline. */
  lemma BornLate(cfg: ManagerCfg, active: map<Txid, Contract>, created: seq<Contract>, offset: nat, height: Height)
    requires Consecutive(cfg, active, created, offset, height) && created != [] && cfg.refundDelay == 0
    ensures !AllInTime(FileAll(active, created))
  {
    var last := |created| - 1;
    assert Created(cfg, active, created[last], offset + last, height);
    assert FileAll(active, created)[created[last].cfg.depositTxid] == created[last];
  }

  /** The new contracts of a block, before they are filed. */
  function CreatedBy(cfg: ManagerCfg, active: map<Txid, Contract>, block: BlockData): seq<Contract> {
    BlockStep(cfg, active, block).created
  }

  /** One successful block: everyone filed and at the block's height, numbering continued exactly when the new
      deposits are distinct, and deadlines respected exactly when there is a refund delay or nothing was created. */
  lemma BlockKeepsOrder(cfg: ManagerCfg, active: map<Txid, Contract>, block: BlockData)
    requires Indexed(active) && Filed(active) && BlockStep(cfg, active, block).status == Running
    ensures var active' := BlockStep(cfg, active, block).active; var created := CreatedBy(cfg, active, block);
      && Filed(active') && AtHeight(active', block.height)
      && (Indexed(active') <==> NoDup(Txids(created)))
      && (NoDup(Txids(created)) ==> |active'| == |active| + |created|)
      && (AllInTime(active') <==> cfg.refundDelay > 0 || created == [])
  {
    hide TxSteps, NotifyAll, NextIndex, Indexed, Consecutive, Sorted, InTime;
    var start := Progress(active, [], [], Running);
    var offset := NextIndex(active);
    NextIndexIsCount(active);
    NothingCreated(cfg, active, offset, block.height);
    TxStepsKeep(cfg, offset, start, block.txs, block.height);
    var p := TxSteps(cfg, offset, start, block.txs, block.height);
    var txids := Sorted(p.active.Keys);
    NotifyArrives(p, txids, block.height);
    var p' := NotifyAll(p, txids, block.height);
    SameIndices(active, p'.active);
    ConsecutiveFrame(cfg, p.active, p'.active, p'.created, offset, block.height);
    assert Filed(p'.active) && AtHeight(p'.active, block.height) && AllInTime(p'.active);
    NumberingContinuesIff(cfg, p'.active, p'.created, block.height);
    FiledInStep(cfg, p'.active, p'.created, offset, block.height);
    if NoDup(Txids(p'.created)) { FilingContinues(cfg, p'.active, p'.created, block.height); }
    if p'.created != [] && cfg.refundDelay == 0 { BornLate(cfg, p'.active, p'.created, offset, block.height); }
  }

  lemma NothingCreated(cfg: ManagerCfg, active: map<Txid, Contract>, offset: nat, height: Height)
    ensures Consecutive(cfg, active, [], offset, height)
  {
  }

  lemma SameIndices(a: map<Txid, Contract>, b: map<Txid, Contract>)
    requires a.Keys == b.Keys && forall txid | txid in a :: a[txid].cfg == b[txid].cfg
    ensures Indices(a) == Indices(b) && |a| == |b| && (Indexed(a) ==> Indexed(b))
  {
    assert |a| == |a.Keys| && |b| == |b.Keys|;
    forall i ensures i in Indices(a) <==> i in Indices(b) {
      if i in Indices(a) { var t :| t in a && a[t].cfg.depositIdx == i; assert b[t].cfg.depositIdx == i; }
      if i in Indices(b) { var t :| t in b && b[t].cfg.depositIdx == i; assert a[t].cfg.depositIdx == i; }
    }
  }

  // ---------- distinct requests ----------

  /** The deposit a transaction requests, whatever index it is offered. */
  ghost predicate Requests(cfg: ManagerCfg, tx: Tx, depositTxid: Txid) {
    exists idx: nat :: cfg.requestInfo(RequestQuery(tx, idx)) == DepositFor(depositTxid)
  }

  /** Distinct deposit requests lead to distinct deposit transactions. */
  ghost predicate DistinctDeposits(cfg: ManagerCfg) {
    forall a: Tx, b: Tx, depositTxid: Txid | Requests(cfg, a, depositTxid) && Requests(cfg, b, depositTxid) :: a == b
  }

  /** Every new contract was requested by some transaction of the list. */
  ghost predicate AllRequested(cfg: ManagerCfg, txs: seq<Tx>, created: seq<Contract>) {
    forall i | 0 <= i < |created| :: RequestedIn(cfg, txs, created[i].cfg.depositTxid)
  }

  ghost predicate RequestedIn(cfg: ManagerCfg, txs: seq<Tx>, depositTxid: Txid) {
    exists tx :: tx in txs && Requests(cfg, tx, depositTxid)
  }

  /** A transaction creates at most one contract, the one it requests. */
  lemma TxStepCreates(cfg: ManagerCfg, offset: nat, p: Progress, tx: Tx, height: Height)
    ensures var created := TxStep(cfg, offset, p, tx, height).created;
      created == p.created ||
      (|created| == |p.created| + 1 && created[..|p.created|] == p.created
       && Requests(cfg, tx, created[|p.created|].cfg.depositTxid))
  {
    hide Deliver, OfferAll, Assignments, Sorted, InitialState, Requests;
    var p1 := Assignments(cfg, p, tx);
    AssignmentsKeep(cfg, p, tx);
    match cfg.requestInfo(RequestQuery(tx, offset + |p1.created|)) {
      case InvalidRequest =>
      case DepositFor(depositTxid) => RequestSeen(cfg, tx, offset + |p1.created|, depositTxid);
      case NotARequest =>
        if tx.txid in p1.active {
          DeliverKeeps(p1, tx.txid, DepositConfirmation(tx), true);
        } else {
          OfferKeeps(p1, Sorted(p1.active.Keys), tx, height);
        }
    }
  }

  lemma RequestSeen(cfg: ManagerCfg, tx: Tx, idx: nat, depositTxid: Txid)
    requires cfg.requestInfo(RequestQuery(tx, idx)) == DepositFor(depositTxid)
    ensures Requests(cfg, tx, depositTxid)
  {
  }

  lemma OneMoreRequested(cfg: ManagerCfg, txs: seq<Tx>, tx: Tx, created: seq<Contract>, c: Contract)
    requires DistinctDeposits(cfg) && AllRequested(cfg, txs, created) && NoDup(Txids(created)) && tx !in txs
    requires Requests(cfg, tx, c.cfg.depositTxid)
    ensures NoDup(Txids(created + [c]))
  {
    hide Requests;
    var all, before := Txids(created + [c]), Txids(created);
    assert forall i | 0 <= i < |created| :: all[i] == before[i];
    forall i: nat, j: nat | i < |all| && j < |all| && Before(i, j) ensures all[i] != all[j] {
      if j < |created| {
        assert before[i] != before[j];
      } else {
        assert RequestedIn(cfg, txs, created[i].cfg.depositTxid);
        var other :| other in txs && Requests(cfg, other, created[i].cfg.depositTxid);
      }
    }
  }

  lemma StillRequested(cfg: ManagerCfg, txs: seq<Tx>, more: seq<Tx>, created: seq<Contract>)
    requires AllRequested(cfg, txs, created) && forall tx | tx in txs :: tx in more
    ensures AllRequested(cfg, more, created)
  {
    hide Requests;
    forall i | 0 <= i < |created| ensures RequestedIn(cfg, more, created[i].cfg.depositTxid) {
      assert RequestedIn(cfg, txs, created[i].cfg.depositTxid);
      var tx :| tx in txs && Requests(cfg, tx, created[i].cfg.depositTxid);
    }
  }

  /** A block of distinct transactions creates contracts for distinct deposits. */
  lemma {:induction false} DistinctTxsCreateDistinct(cfg: ManagerCfg, offset: nat, active: map<Txid, Contract>,
      txs: seq<Tx>, height: Height)
    requires DistinctDeposits(cfg) && NoDup(txs)
    ensures var created := TxSteps(cfg, offset, Progress(active, [], [], Running), txs, height).created;
      NoDup(Txids(created)) && AllRequested(cfg, txs, created)
    decreases |txs|
  {
    hide TxStep, DistinctDeposits, Requests;
    if txs != [] {
      var last := |txs| - 1;
      var front, tx := txs[..last], txs[last];
      assert forall i: nat, j: nat | i < |front| && j < |front| && Before(i, j) ::
        front[i] == txs[i] && front[j] == txs[j];
      DistinctTxsCreateDistinct(cfg, offset, active, front, height);
      var before := TxSteps(cfg, offset, Progress(active, [], [], Running), front, height);
      assert tx !in front by { forall i: nat | i < last ensures front[i] != tx { assert Before(i, last); } }
      assert forall x | x in front :: x in txs;
      StillRequested(cfg, front, txs, before.created);
      if before.status == Running {
        TxStepCreates(cfg, offset, before, tx, height);
        var created := TxStep(cfg, offset, before, tx, height).created;
        if created != before.created {
          assert created == before.created + [created[|before.created|]];
          OneMoreRequested(cfg, front, tx, before.created, created[|before.created|]);
          assert tx in txs;
        }
      }
    }
  }

  lemma CreatedAreTheSteps(cfg: ManagerCfg, active: map<Txid, Contract>, block: BlockData)
    ensures CreatedBy(cfg, active, block)
         == TxSteps(cfg, NextIndex(active), Progress(active, [], [], Running), block.txs, block.height).created
  {
    hide TxSteps, NotifyAll, FileAll, NextIndex, Sorted;
    var p := TxSteps(cfg, NextIndex(active), Progress(active, [], [], Running), block.txs, block.height);
    NotifyArrives(p, Sorted(p.active.Keys), block.height);
  }

  // ---------- whole runs ----------

  /** What happens to the manager: blocks, and in between messages and verdicts passed on to one contract. */
  datatype Happening = BlockArrived(block: BlockData) | PassedOn(txid: Txid, ev: Event)

  datatype Manager = Manager(active: map<Txid, Contract>, status: Status)

  /** Peers' messages and the results of verifying a claim or an assertion. */
  predicate Direct(ev: Event) {
    IsMessage(ev) || ev.ClaimFailure? || ev.AssertionFailure?
  }

  /** A rejected message is only logged; a failed block ends the run. */
  function Happen(cfg: ManagerCfg, mgr: Manager, h: Happening): Manager {
    match h
    case BlockArrived(block) =>
      var p := BlockStep(cfg, mgr.active, block);
      Manager(p.active, p.status)
    case PassedOn(txid, ev) =>
      if txid !in mgr.active || !Direct(ev) then mgr
      else
        var p := Deliver(Progress(mgr.active, [], [], Running), txid, ev, true);
        Manager(p.active, p.status)
  }

  function History(cfg: ManagerCfg, hs: seq<Happening>): Manager {
    if hs == [] then Manager(map[], Running)
    else Happen(cfg, History(cfg, hs[..|hs| - 1]), hs[|hs| - 1])
  }

  /** No block failed, nothing crashed, and no block holds a transaction twice. */
  ghost predicate Smooth(cfg: ManagerCfg, hs: seq<Happening>) {
    hs == [] ||
    (&& Smooth(cfg, hs[..|hs| - 1])
     && History(cfg, hs).status == Running
     && (hs[|hs| - 1].BlockArrived? ==> NoDup(hs[|hs| - 1].block.txs)))
  }

  /** The height of the last block. */
  function LastHeight(hs: seq<Happening>): Height {
    if hs == [] then 0
    else if hs[|hs| - 1].BlockArrived? then hs[|hs| - 1].block.height
    else LastHeight(hs[..|hs| - 1])
  }

  /** The contracts the last block created. */
  function LastCreated(cfg: ManagerCfg, hs: seq<Happening>): seq<Contract> {
    if hs == [] then []
    else if hs[|hs| - 1].BlockArrived? then CreatedBy(cfg, History(cfg, hs[..|hs| - 1]).active, hs[|hs| - 1].block)
    else LastCreated(cfg, hs[..|hs| - 1])
  }

  lemma DirectKeepsDeadline(cfg: Cfg, m: Machine, ev: Event)
    requires Direct(ev)
    ensures var m' := Step(cfg, m, ev).0; m'.blockHeight == m.blockHeight && (InTime(m') <==> InTime(m))
  {
    hide SetupGraphs, SetupCache, SigningDuties, SessionsFull, Sorted, CanAggregate, ByClaim, AggregateSigs;
    hide VerifyPartials, Sum, InTableOrder;
    hide AggregateNonces, Contribute, Unpacks, Owners, NoContributions, Summaries, ClaimsOf;
  }

  lemma DirectKeepsOrder(cfg: ManagerCfg, active: map<Txid, Contract>, height: Height, txid: Txid, ev: Event)
    requires Indexed(active) && Filed(active) && AtHeight(active, height) && txid in active && Direct(ev)
    ensures var active' := Deliver(Progress(active, [], [], Running), txid, ev, true).active;
      && Indexed(active') && Filed(active') && AtHeight(active', height)
      && (AllInTime(active') <==> AllInTime(active))
  {
    hide Step, Indexed, InTime;
    var active' := Deliver(Progress(active, [], [], Running), txid, ev, true).active;
    DirectKeepsDeadline(active[txid].cfg, active[txid].m, ev);
    SameIndices(active, active');
    forall t | t in active ensures InTime(active'[t].m) <==> InTime(active[t].m) { }
  }

  /** From an empty start: the indices are exactly 0 .. n-1 and all contracts are at the last block's height; every
      contract still waiting for its deposit is strictly below its abort deadline if and only if there is a refund
      delay or the last block created nothing. */
  lemma {:induction false} ContractsStayInStep(cfg: ManagerCfg, hs: seq<Happening>)
    requires DistinctDeposits(cfg) && Smooth(cfg, hs)
    ensures var active := History(cfg, hs).active;
      && Indexed(active) && Filed(active) && AtHeight(active, LastHeight(hs))
      && (AllInTime(active) <==> cfg.refundDelay > 0 || LastCreated(cfg, hs) == [])
    decreases |hs|
  {
    hide BlockStep, Deliver, Indexed, Filed, AtHeight, AllInTime, NoDup, Txids, DistinctDeposits, NextIndex, TxSteps;
    hide CreatedBy, AllRequested;
    if hs == [] {
      NobodyIsInStep(LastHeight(hs));
    } else {
      var front, h := hs[..|hs| - 1], hs[|hs| - 1];
      ContractsStayInStep(cfg, front);
      var active := History(cfg, front).active;
      match h
      case BlockArrived(block) =>
        DistinctTxsCreateDistinct(cfg, NextIndex(active), active, block.txs, block.height);
        CreatedAreTheSteps(cfg, active, block);
        BlockKeepsOrder(cfg, active, block);
      case PassedOn(txid, ev) =>
        if txid in active && Direct(ev) { DirectKeepsOrder(cfg, active, LastHeight(front), txid, ev); }
    }
  }

  lemma NobodyIsInStep(height: Height)
    ensures Indexed(map[]) && Filed(map[]) && AtHeight(map[], height) && AllInTime(map[])
  {
    var none: map<Txid, Contract> := map[];
    assert |none| == 0;
  }

  /** Gap-free indices are not used twice. */
  lemma NoIndexTwice(active: map<Txid, Contract>, a: Txid, b: Txid)
    requires Indexed(active) && a in active && b in active && a != b
    ensures active[a].cfg.depositIdx != active[b].cfg.depositIdx
  {
    if active[a].cfg.depositIdx == active[b].cfg.depositIdx {
      var rest := active - {a};
      assert rest.Keys == active.Keys - {a};
      assert |rest| == |rest.Keys| && |active| == |active.Keys|;
      assert |rest| == |active| - 1;
      forall i | i in Indices(active) ensures i in Indices(rest) {
        var t :| t in active && active[t].cfg.depositIdx == i;
        var t' := if t == a then b else t;
        assert t' in rest && rest[t'].cfg.depositIdx == i;
      }
      IndexCount(rest);
      assert Below(|active|) <= Indices(rest);
      SubsetSize(Below(|active|), Indices(rest));
      assert false;
    }
  }

  lemma {:induction false} IndexCount(active: map<Txid, Contract>)
    ensures |Indices(active)| <= |active|
    decreases |active|
  {
    if active != map[] {
      var t :| t in active;
      var rest := active - {t};
      assert rest.Keys == active.Keys - {t};
      assert |rest| == |rest.Keys| && |active| == |active.Keys|;
      IndexCount(rest);
      forall i | i in Indices(active) ensures i in Indices(rest) + {active[t].cfg.depositIdx} {
        var u :| u in active && active[u].cfg.depositIdx == i;
        assert u == t || (u in rest && rest[u].cfg.depositIdx == i);
      }
      SubsetSize(Indices(active), Indices(rest) + {active[t].cfg.depositIdx});
    }
  }
}
