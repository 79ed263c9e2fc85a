/** The contract manager as the object the node runs; its loops compute the specification. */
module ManagerMachine {
  import opened Collections
  import opened ContractTypes
  import opened ContractSpec
  import opened ManagerSpec

  lemma SortedMembers(s: set<nat>)
    ensures forall x | x in Sorted(s) :: x in s
  {
  }

  // A failure ends a loop: the elements after it no longer matter.

  lemma {:induction false} AssignFailureSticks(cfg: ManagerCfg, p: Progress, entries: seq<AssignedEntry>, l1: Height,
      n: nat)
    requires n <= |entries| && AssignAll(cfg, p, entries[..n], l1).status != Running
    ensures AssignAll(cfg, p, entries, l1) == AssignAll(cfg, p, entries[..n], l1)
    decreases |entries|
  {
    hide AssignOne;
    if n == |entries| {
      assert entries[..n] == entries;
    } else {
      var front := entries[..|entries| - 1];
      assert front[..n] == entries[..n];
      AssignFailureSticks(cfg, p, front, l1, n);
    }
  }

  lemma {:induction false} OfferFailureSticks(p: Progress, txids: seq<Txid>, tx: Tx, height: Height, n: nat)
    requires n <= |txids| && forall t | t in txids :: t in p.active
    requires OfferAll(p, txids[..n], tx, height).status != Running
    ensures OfferAll(p, txids, tx, height) == OfferAll(p, txids[..n], tx, height)
    decreases |txids|
  {
    hide Deliver, TransactionFilter;
    if n == |txids| {
      assert txids[..n] == txids;
    } else {
      var front := txids[..|txids| - 1];
      assert front[..n] == txids[..n];
      OfferFailureSticks(p, front, tx, height, n);
    }
  }

  lemma {:induction false} TxFailureSticks(cfg: ManagerCfg, offset: nat, p: Progress, txs: seq<Tx>, height: Height,
      n: nat)
    requires n <= |txs| && TxSteps(cfg, offset, p, txs[..n], height).status != Running
    ensures TxSteps(cfg, offset, p, txs, height) == TxSteps(cfg, offset, p, txs[..n], height)
    decreases |txs|
  {
    hide TxStep;
    if n == |txs| {
      assert txs[..n] == txs;
    } else {
      var front := txs[..|txs| - 1];
      assert front[..n] == txs[..n];
      TxFailureSticks(cfg, offset, p, front, height, n);
    }
  }

  lemma {:induction false} NotifyFailureSticks(p: Progress, txids: seq<Txid>, height: Height, n: nat)
    requires n <= |txids| && forall t | t in txids :: t in p.active
    requires NotifyAll(p, txids[..n], height).status != Running
    ensures NotifyAll(p, txids, height) == NotifyAll(p, txids[..n], height)
    decreases |txids|
  {
    hide Deliver;
    if n == |txids| {
      assert txids[..n] == txids;
    } else {
      var front := txids[..|txids| - 1];
      assert front[..n] == txids[..n];
      NotifyFailureSticks(p, front, height, n);
    }
  }

  class ContractManager {
    const cfg: ManagerCfg
    var active: map<Txid, Contract>
    var created: seq<Contract>
    var duties: seq<ManagerDuty>

    ghost function Now(status: Status): Progress
      reads this
    {
      Progress(active, created, duties, status)
    }

    constructor (cfg: ManagerCfg)
      ensures this.cfg == cfg && active == map[] && created == [] && duties == []
    {
      this.cfg := cfg;
      active, created, duties := map[], [], [];
    }

    /** Feeds an event to one contract and collects its duties. */
    method Feed(txid: Txid, ev: Event, lenient: bool) returns (status: Status)
      requires txid in active
      modifies this`active, this`duties
      ensures Now(status) == Deliver(old(Now(Running)), txid, ev, lenient)
    {
      hide Step;
      var c := active[txid];
      var (m, outcome) := Step(c.cfg, c.m, ev);
      active := active[txid := Contract(c.cfg, m)];
      match outcome {
        case Ok(more) =>
          duties := duties + Wrap(more);
          return Running;
        case Rejected =>
          return if lenient then Running else Failed;
        case Panic =>
          return Crashed;
      }
    }

    method ProcessAssignments(tx: Tx) returns (status: Status)
      modifies this`active, this`duties
      ensures Now(status) == Assignments(cfg, old(Now(Running)), tx)
    {
      hide Deliver;
      var parsed := cfg.parseCheckpoint(tx);
      if parsed.None? {
        return Running;
      }
      var entries, l1 := parsed.value.entries, parsed.value.l1StartHeight;
      for i := 0 to |entries|
        invariant Now(Running) == AssignAll(cfg, old(Now(Running)), entries[..i], l1)
      {
        assert entries[..i + 1][..i] == entries[..i];
        var a := entries[i];
        if a.entry.dispatched.None? {
          continue;
        }
        if a.depositTxid !in active {
          AssignFailureSticks(cfg, old(Now(Running)), entries, l1, i + 1);
          return Crashed;
        }
        var stakeTx := cfg.ownStakeTx(StakeQuery(a.entry.idx));
        if stakeTx.None? {
          continue;
        }
        status := Feed(a.depositTxid, Assignment(a.entry, stakeTx.value, l1), false);
        if status != Running {
          AssignFailureSticks(cfg, old(Now(Running)), entries, l1, i + 1);
          return;
        }
      }
      assert entries[..|entries|] == entries;
      return Running;
    }

    /** Offers a transaction to every contract that has not seen this block. */
    method OfferTx(tx: Tx, height: Height) returns (status: Status)
      modifies this`active, this`duties
      ensures Now(status) == OfferAll(old(Now(Running)), Sorted(old(active).Keys), tx, height)
    {
      hide Deliver, TransactionFilter, Lists, Sorted;
      var txids := Sorted(active.Keys);
      SortedMembers(active.Keys);
      for i := 0 to |txids|
        invariant forall t | t in txids :: t in old(active)
        invariant Now(Running) == OfferAll(old(Now(Running)), txids[..i], tx, height)
      {
        assert txids[..i + 1][..i] == txids[..i];
        assert txids[i] in txids;
        if active[txids[i]].m.blockHeight >= height {
          continue;
        }
        if TransactionFilter(active[txids[i]], tx) {
          status := Feed(txids[i], PegOutGraphConfirmation(tx, height), false);
          if status != Running {
            OfferFailureSticks(old(Now(Running)), txids, tx, height, i + 1);
            return;
          }
        }
      }
      assert txids[..|txids|] == txids;
      return Running;
    }

    method ProcessTx(offset: nat, tx: Tx, height: Height) returns (status: Status)
      modifies this
      ensures Now(status) == TxStep(cfg, offset, old(Now(Running)), tx, height)
    {
      hide Deliver, OfferAll, Assignments, Sorted;
      var before := |duties|;
      status := ProcessAssignments(tx);
      if status != Running || |duties| > before {
        return;
      }
      var idx := offset + |created|;
      match cfg.requestInfo(RequestQuery(tx, idx)) {
        case InvalidRequest =>
          return Running;
        case DepositFor(depositTxid) =>
          if depositTxid in active {
            return Running;
          }
          if !cfg.ownChainKnown {
            return Crashed;
          }
          created := created + [NewContract(cfg, height, tx.txid, depositTxid, idx)];
          duties := duties + [PublishDepositSetup(depositTxid, idx)];
          return Running;
        case NotARequest =>
          if tx.txid in active {
            if active[tx.txid].m.blockHeight >= height {
              return Running;
            }
            status := Feed(tx.txid, DepositConfirmation(tx), true);
          } else {
            status := OfferTx(tx, height);
          }
      }
    }

    method ProcessTxs(offset: nat, txs: seq<Tx>, height: Height) returns (status: Status)
      modifies this
      ensures Now(status) == TxSteps(cfg, offset, old(Now(Running)), txs, height)
    {
      hide TxStep;
      for i := 0 to |txs|
        invariant Now(Running) == TxSteps(cfg, offset, old(Now(Running)), txs[..i], height)
      {
        assert txs[..i + 1][..i] == txs[..i];
        status := ProcessTx(offset, txs[i], height);
        if status != Running {
          TxFailureSticks(cfg, offset, old(Now(Running)), txs, height, i + 1);
          return;
        }
      }
      assert txs[..|txs|] == txs;
      return Running;
    }

    method NotifyContracts(height: Height) returns (status: Status)
      modifies this`active, this`duties
      ensures Now(status) == NotifyAll(old(Now(Running)), Sorted(old(active).Keys), height)
    {
      hide Deliver, Lists, Sorted;
      var txids := Sorted(active.Keys);
      SortedMembers(active.Keys);
      for i := 0 to |txids|
        invariant forall t | t in txids :: t in old(active)
        invariant Now(Running) == NotifyAll(old(Now(Running)), txids[..i], height)
      {
        assert txids[..i + 1][..i] == txids[..i];
        assert txids[i] in txids;
        status := Feed(txids[i], Block(height), false);
        if status != Running {
          NotifyFailureSticks(old(Now(Running)), txids, height, i + 1);
          return;
        }
      }
      assert txids[..|txids|] == txids;
      return Running;
    }

    /** Transactions first, then the block itself, and only then the contracts it created. */
    method ProcessBlock(block: BlockData) returns (status: Status)
      modifies this
      ensures Now(status) == BlockStep(cfg, old(active), block)
    {
      hide TxSteps, NotifyAll, Sorted;
      created, duties := [], [];
      var offset := NextIndex(active);
      status := ProcessTxs(offset, block.txs, block.height);
      if status != Running {
        return;
      }
      status := NotifyContracts(block.height);
      if status != Running {
        return;
      }
      ghost var notified, news, owed := active, created, duties;
      for i := 0 to |created|
        invariant created == news && duties == owed
        invariant active == FileAll(notified, created[..i])
      {
        assert created[..i + 1][..i] == created[..i];
        active := active[created[i].cfg.depositTxid := created[i]];
      }
      assert created[..|created|] == created;
    }
  }
}
