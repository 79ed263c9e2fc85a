/** Consequences of a block's deliveries: aborts reach the executor, and filtering transactions is invisible. */
module ManagerEffects {
  import opened Collections
  import opened ContractTypes
  import opened ContractSpec
  import opened ContractCache
  import opened ContractInvariant
  import opened ContractLifecycle
  import opened ContractRuns
  import opened ContractBlocks
  import opened ContractPaths
  import opened ManagerSpec
  import opened ManagerRouting
  import opened ManagerLedger

  // ---------- aborting ----------

  lemma {:induction false} NoBlocksOffered(active: map<Txid, Contract>, txids: seq<Txid>, tx: Tx, height: Height)
    requires forall t | t in txids :: t in active
    ensures forall d | d in OfferLog(active, txids, tx, height) :: !d.ev.Block?
    decreases |txids|
  {
    hide TransactionFilter;
    if txids != [] {
      assert forall t | t in txids[..|txids| - 1] :: t in txids;
      assert txids[|txids| - 1] in txids;
      NoBlocksOffered(active, txids[..|txids| - 1], tx, height);
    }
  }

  lemma {:induction false} NoBlocksAssigned(cfg: ManagerCfg, entries: seq<AssignedEntry>, l1: Height)
    ensures forall d | d in AssignmentLog(cfg, entries, l1) :: !d.ev.Block?
    decreases |entries|
  {
    if entries != [] { NoBlocksAssigned(cfg, entries[..|entries| - 1], l1); }
  }

  lemma NoBlocksDelivered(cfg: ManagerCfg, active: map<Txid, Contract>, idx: nat, tx: Tx, height: Height,
      log: seq<Delivery>)
    requires Delivered(cfg, active, idx, tx, height, log)
    ensures forall d | d in log :: !d.ev.Block?
  {
    hide Replay, Answers, OfferLog, AssignmentLog, Sorted, Lists;
    var called := CheckpointLog(cfg, tx);
    if cfg.parseCheckpoint(tx).Some? {
      NoBlocksAssigned(cfg, cfg.parseCheckpoint(tx).value.entries, cfg.parseCheckpoint(tx).value.l1StartHeight);
    }
    var now := Replay(active, called);
    SortedIsNoDup(now.Keys);
    NoBlocksOffered(now, Sorted(now.Keys), tx, height);
    assert log == called + log[|called|..];
    assert forall d | d in log :: d in called || d in log[|called|..];
  }

  lemma {:induction false} NoBlocksInTurn(cfg: ManagerCfg, active: map<Txid, Contract>, offset: nat, txs: seq<Tx>,
      height: Height, logs: seq<seq<Delivery>>, created: seq<Contract>)
    requires InTurn(cfg, active, offset, txs, height, logs, created)
    ensures forall d | d in Flat(logs) :: !d.ev.Block?
    decreases |txs|
  {
    hide Delivered, Creates, RequestedBy, Replay;
    if txs != [] {
      var last := |txs| - 1;
      var now := Replay(active, Flat(logs[..last]));
      if !Creates(cfg, now, offset + |created|, txs[last])
         && InTurn(cfg, active, offset, txs[..last], height, logs[..last], created)
         && Delivered(cfg, now, offset + |created|, txs[last], height, logs[last]) {
        NoBlocksInTurn(cfg, active, offset, txs[..last], height, logs[..last], created);
        NoBlocksDelivered(cfg, now, offset + |created|, txs[last], height, logs[last]);
      } else {
        var before := created[..|created| - 1];
        NoBlocksInTurn(cfg, active, offset, txs[..last], height, logs[..last], before);
        NoBlocksDelivered(cfg, now, offset + |before|, txs[last], height, logs[last]);
      }
    }
  }

  lemma {:induction false} EventsAreDelivered(log: seq<Delivery>, txid: Txid)
    requires forall d | d in log :: !d.ev.Block?
    ensures forall ev | ev in EventsFor(log, txid) :: !ev.Block?
    decreases |log|
  {
    if log != [] {
      assert log[|log| - 1] in log && forall d | d in log[..|log| - 1] :: d in log;
      EventsAreDelivered(log[..|log| - 1], txid);
    }
  }

  /** Without a block a waiting contract keeps its deadline and is not aborted. */
  lemma {:induction false} NoBlockNoAbort(cfg: Cfg, m: Machine, evs: seq<Event>)
    requires m.state.Requested? && forall ev | ev in evs :: !ev.Block?
    ensures var s := Run(cfg, m, evs).state;
      !s.Aborted? && (s.Requested? ==> s.r.abortDeadline == m.state.r.abortDeadline)
    decreases |evs|
  {
    hide Step, Edge, Keeps;
    if evs != [] {
      var front, ev := evs[..|evs| - 1], evs[|evs| - 1];
      assert ev in evs && forall e | e in front :: e in evs;
      NoBlockNoAbort(cfg, m, front);
      var before := Run(cfg, m, front);
      AbortStep(cfg, before, ev);
      StepMovesForward(cfg, before, ev);
      if Step(cfg, before, ev).0.state.Requested? { DeadlineStays(cfg, before, ev); }
    }
  }

  /** The delivery of the block to one contract, and its answer. */
  lemma BlockDelivery(active: map<Txid, Contract>, log: seq<Delivery>, height: Height, txid: Txid) returns (n: nat)
    requires txid in active
    ensures var all := log + BlockLog(Sorted(active.Keys), height); var c := active[txid];
      && 0 < n <= |all| && all[n - 1] == Delivery(txid, Block(height))
      && LastOutcome(active, all[..n]) == Step(c.cfg, Run(c.cfg, c.m, EventsFor(log, txid)), Block(height)).1
  {
    hide Step, Run, Replay, Sorted, EventsFor;
    var txids := Sorted(active.Keys);
    var all := log + BlockLog(txids, height);
    KeyIsSorted(active.Keys, txid);
    SortedIsNoDup(active.Keys);
    var k: nat :| k < |txids| && txids[k] == txid;
    n := |log| + k + 1;
    var front := txids[..k];
    assert all[..n][..n - 1] == log + BlockLog(front, height) && all[..n][n - 1] == Delivery(txid, Block(height));
    FirstOccurrence(txids, k);
    EventsAppend(log, BlockLog(front, height), txid);
    BlockEvents(front, height, txid);
    assert EventsFor(log + BlockLog(front, height), txid) == EventsFor(log, txid);
    ReplayIsRun(active, log + BlockLog(front, height), txid);
  }

  lemma FirstOccurrence(txids: seq<Txid>, k: nat)
    requires k < |txids| && NoDup(txids)
    ensures txids[k] !in txids[..k] && NoDup(txids[..k])
  {
    var front := txids[..k];
    forall i: nat | i < k ensures front[i] != txids[k] { assert Before(i, k); }
    forall i: nat, j: nat | i < |front| && j < |front| && Before(i, j) ensures front[i] != front[j] {
      assert txids[i] != txids[j];
    }
  }

  lemma {:induction false} ReachesExecutor(duties: seq<ManagerDuty>, d: Duty)
    requires d in ContractDuties(duties)
    ensures FromContract(d) in duties
    decreases |duties|
  {
    var last := |duties| - 1;
    if d in ContractDuties(duties[..last]) {
      ReachesExecutor(duties[..last], d);
    } else {
      assert duties[last] == FromContract(d);
    }
  }

  /** After a successful block a contract that still waits is below its deadline; one that was waiting and is aborted
      has its abort duty among the block's. */
  lemma AbortsReachExecutor(cfg: ManagerCfg, active: map<Txid, Contract>, block: BlockData, txid: Txid)
    requires BlockStep(cfg, active, block).status == Running && txid in active && active[txid].m.state.Requested?
    ensures var p := BlockStep(cfg, active, block);
      && txid in p.active
      && (p.active[txid].m.state.Requested? ==> block.height < active[txid].m.state.r.abortDeadline)
      && (p.active[txid].m.state.Aborted? ==> FromContract(Abort) in p.duties)
  {
    hide BlockStep, InTurn, Answers, Replay, Flat, EventsFor, BlockLog, Sorted, NextIndex, Run, Step, LastOutcome;
    hide ContractDuties, Edge, Keeps;
    var p, c := BlockStep(cfg, active, block), active[txid];
    var logs := ContractHearsBlock(cfg, active, block, txid);
    var heard := EventsFor(Flat(logs), txid);
    var ev := Block(block.height);
    NoBlocksInTurn(cfg, active, NextIndex(active), block.txs, block.height, logs, p.created);
    EventsAreDelivered(Flat(logs), txid);
    NoBlockNoAbort(c.cfg, c.m, heard);
    var m := Run(c.cfg, c.m, heard);
    RunOneMore(c.cfg, c.m, heard, ev);
    AbortStep(c.cfg, m, ev);
    HeightStep(c.cfg, m, ev);
    StepMovesForward(c.cfg, m, ev);
    var n := BlockDelivery(active, Flat(logs), block.height, txid);
    AcceptedBlock(c.cfg, m, block.height);
    if p.active[txid].m.state.Aborted? {
      assert Abort in DutiesOf(Step(c.cfg, m, ev).1);
      AnswersContain(active, Flat(logs) + BlockLog(Sorted(active.Keys), block.height), n, Abort);
      ReachesExecutor(p.duties, Abort);
    }
  }

  lemma AcceptedBlock(cfg: Cfg, m: Machine, height: Height)
    requires Step(cfg, m, Block(height)).1.Ok?
    ensures height == m.blockHeight + 1
  {
    hide BlockDuty;
  }

  // ---------- the filter ----------

  /** Neither a checkpoint nor a deposit request. */
  ghost predicate Plain(cfg: ManagerCfg, tx: Tx) {
    cfg.parseCheckpoint(tx).None? && forall idx: nat :: cfg.requestInfo(RequestQuery(tx, idx)).NotARequest?
  }

  function Confirmations(txs: seq<Tx>, height: Height): seq<Event> {
    seq(|txs|, i requires 0 <= i < |txs| => PegOutGraphConfirmation(txs[i], height))
  }

  lemma {:induction false} OfferedEvents(active: map<Txid, Contract>, txids: seq<Txid>, tx: Tx, height: Height, t: Txid)
    requires NoDup(txids) && forall x | x in txids :: x in active
    ensures EventsFor(OfferLog(active, txids, tx, height), t) ==
      if t in txids && active[t].m.blockHeight < height && TransactionFilter(active[t], tx)
      then [PegOutGraphConfirmation(tx, height)] else []
    decreases |txids|
  {
    hide TransactionFilter, NoDup, EventsFor;
    if txids == [] {
      NoEvent(t);
    } else {
      var last := |txids| - 1;
      var front, x := txids[..last], txids[last];
      assert txids == front + [x];
      FrontWithout(txids);
      OfferedEvents(active, front, tx, height, t);
      EventsAppend(OfferLog(active, front, tx, height), [Delivery(x, PegOutGraphConfirmation(tx, height))], t);
      OneEvent(Delivery(x, PegOutGraphConfirmation(tx, height)), t);
      assert OfferLog(active, front, tx, height) + [] == OfferLog(active, front, tx, height);
    }
  }

  lemma NoEvent(t: Txid)
    ensures EventsFor([], t) == []
  {
  }

  lemma OneEvent(d: Delivery, t: Txid)
    ensures EventsFor([d], t) == if d.txid == t then [d.ev] else []
  {
    assert [d][..0] == [];
  }

  /** A plain transaction that is no deposit reaches a contract behind the block exactly when its filter wants it. */
  lemma PlainEvents(cfg: ManagerCfg, active: map<Txid, Contract>, idx: nat, tx: Tx, height: Height, log: seq<Delivery>,
      t: Txid)
    requires Delivered(cfg, active, idx, tx, height, log) && Plain(cfg, tx) && tx.txid !in active
    requires t in active && active[t].m.blockHeight < height
    ensures EventsFor(log, t) == if TransactionFilter(active[t], tx) then [PegOutGraphConfirmation(tx, height)] else []
  {
    hide TransactionFilter, OfferLog, Sorted, EventsFor;
    assert CheckpointLog(cfg, tx) == [] && Replay(active, []) == active && Answers(active, []) == [];
    assert log[0..] == log;
    SortedIsNoDup(active.Keys);
    KeyIsSorted(active.Keys, t);
    OfferedEvents(active, Sorted(active.Keys), tx, height, t);
  }

  lemma LastTurn(cfg: ManagerCfg, active: map<Txid, Contract>, offset: nat, txs: seq<Tx>, height: Height,
      logs: seq<seq<Delivery>>, created: seq<Contract>)
    returns (idx: nat, before: seq<Contract>)
    requires txs != [] && InTurn(cfg, active, offset, txs, height, logs, created)
    ensures |logs| == |txs|
    ensures var last := |txs| - 1;
      && InTurn(cfg, active, offset, txs[..last], height, logs[..last], before)
      && Delivered(cfg, Replay(active, Flat(logs[..last])), idx, txs[last], height, logs[last])
  {
    hide Delivered, Creates, RequestedBy, Replay, Flat;
    var last := |txs| - 1;
    var now := Replay(active, Flat(logs[..last]));
    if !Creates(cfg, now, offset + |created|, txs[last])
       && InTurn(cfg, active, offset, txs[..last], height, logs[..last], created)
       && Delivered(cfg, now, offset + |created|, txs[last], height, logs[last]) {
      idx, before := offset + |created|, created;
    } else {
      before := created[..|created| - 1];
      idx := offset + |before|;
    }
  }

  lemma {:induction false} AdmissiblePrefix(cfg: Cfg, env: Env, height: Height, deadline: Height, a: seq<Event>,
      b: seq<Event>)
    requires AdmissibleRun(cfg, env, height, deadline, a + b)
    ensures AdmissibleRun(cfg, env, height, deadline, a)
    decreases |b|
  {
    hide Admissible, Exec;
    if b == [] {
      assert a + b == a;
    } else {
      assert (a + b)[..|a + b| - 1] == a + b[..|b| - 1];
      AdmissiblePrefix(cfg, env, height, deadline, a, b[..|b| - 1]);
    }
  }

  lemma {:induction false} HeightStays(cfg: Cfg, m: Machine, txs: seq<Tx>, height: Height)
    ensures Run(cfg, m, Confirmations(txs, height)).blockHeight == m.blockHeight
    decreases |txs|
  {
    hide Step;
    if txs != [] {
      var front, last := txs[..|txs| - 1], txs[|txs| - 1];
      assert Confirmations(txs, height) == Confirmations(front, height) + [PegOutGraphConfirmation(last, height)];
      HeightStays(cfg, m, front, height);
      RunOneMore(cfg, m, Confirmations(front, height), PegOutGraphConfirmation(last, height));
      HeightStep(cfg, Run(cfg, m, Confirmations(front, height)), PegOutGraphConfirmation(last, height));
    }
  }

  /** What a reachable contract is given of some plain transactions brings it where all of them would. */
  lemma {:induction false} FilteredIsUnfiltered(cfg: ManagerCfg, active: map<Txid, Contract>, offset: nat, txs: seq<Tx>,
      height: Height, logs: seq<seq<Delivery>>, created: seq<Contract>, t: Txid, env: Env, start: Height,
      deadline: Height, evs: seq<Event>)
    requires InTurn(cfg, active, offset, txs, height, logs, created) && t in active && active[t].m.blockHeight < height
    requires forall tx | tx in txs :: Plain(cfg, tx) && tx.txid !in active
    requires var c := active[t];
      && CfgOk(c.cfg, env) && c.m == Exec(c.cfg, start, deadline, evs).m
      && AdmissibleRun(c.cfg, env, start, deadline, evs + Confirmations(txs, height))
    ensures var c := active[t];
      Run(c.cfg, c.m, EventsFor(Flat(logs), t)) == Run(c.cfg, c.m, Confirmations(txs, height))
    decreases |txs|
  {
    hide InTurn, Delivered, Plain, Replay, Run, Step, Exec, CfgOk, AdmissibleRun, TransactionFilter, EventsFor, Flat;
    var c := active[t];
    if txs == [] {
      NoTurns(cfg, active, offset, height, logs, created);
      assert Confirmations(txs, height) == [];
    } else {
      var last := |txs| - 1;
      var front, tx := txs[..last], txs[last];
      var ev := PegOutGraphConfirmation(tx, height);
      var confs := Confirmations(front, height);
      assert tx in txs && forall x | x in front :: x in txs;
      assert Confirmations(txs, height) == confs + [ev];
      assert evs + (confs + [ev]) == (evs + confs) + [ev];
      AdmissiblePrefix(c.cfg, env, start, deadline, evs + confs, [ev]);
      var idx, before := LastTurn(cfg, active, offset, txs, height, logs, created);
      FilteredIsUnfiltered(cfg, active, offset, front, height, logs[..last], before, t, env, start, deadline, evs);
      var m := Run(c.cfg, c.m, confs);
      var now := Replay(active, Flat(logs[..last]));
      ReplayKeys(active, Flat(logs[..last]));
      ReplayIsRun(active, Flat(logs[..last]), t);
      HeightStays(c.cfg, c.m, front, height);
      PlainEvents(cfg, now, idx, tx, height, logs[last], t);
      ExecIsRun(c.cfg, start, deadline, evs);
      ExecIsRun(c.cfg, start, deadline, evs + confs);
      RunConcat(c.cfg, InitialState(c.cfg, start, deadline), evs, confs);
      WithheldMeansIrrelevant(c.cfg, env, start, deadline, evs + confs, tx, height);
      RunOneMore(c.cfg, c.m, confs, ev);
      FlatLast(logs);
      EventsAppend(Flat(logs[..last]), logs[last], t);
      var heard := EventsFor(Flat(logs[..last]), t);
      if TransactionFilter(now[t], tx) {
        RunOneMore(c.cfg, c.m, heard, ev);
      } else {
        assert heard + [] == heard;
      }
    }
  }

  lemma NoTurns(cfg: ManagerCfg, active: map<Txid, Contract>, offset: nat, height: Height,
      logs: seq<seq<Delivery>>, created: seq<Contract>)
    requires InTurn(cfg, active, offset, [], height, logs, created)
    ensures Flat(logs) == [] && forall t :: EventsFor(Flat(logs), t) == []
  {
  }

  lemma FlatLast(logs: seq<seq<Delivery>>)
    requires logs != []
    ensures Flat(logs) == Flat(logs[..|logs| - 1]) + logs[|logs| - 1]
  {
  }

  /** A successful block of plain transactions, none of them a deposit, leaves every reachable contract exactly where
      being told of all of them, and then of the block, would: the filter is invisible. */
  lemma FilterIsInvisible(cfg: ManagerCfg, active: map<Txid, Contract>, block: BlockData, t: Txid, env: Env,
      start: Height, deadline: Height, evs: seq<Event>)
    requires BlockStep(cfg, active, block).status == Running && t in active && active[t].m.blockHeight < block.height
    requires forall tx | tx in block.txs :: Plain(cfg, tx) && tx.txid !in active
    requires var c := active[t];
      && CfgOk(c.cfg, env) && c.m == Exec(c.cfg, start, deadline, evs).m
      && AdmissibleRun(c.cfg, env, start, deadline, evs + Confirmations(block.txs, block.height))
    ensures var p := BlockStep(cfg, active, block); var c := active[t];
      && t in p.active
      && p.active[t].m == Run(c.cfg, c.m, Confirmations(block.txs, block.height) + [Block(block.height)])
  {
    hide BlockStep, InTurn, AllTolerated, Answers, Replay, Flat, EventsFor, BlockLog, Sorted, NextIndex, Run, Exec;
    hide CfgOk;
    hide AdmissibleRun, Plain, ContractDuties;
    var c := active[t];
    var logs := ContractHearsBlock(cfg, active, block, t);
    var p := BlockStep(cfg, active, block);
    FilteredIsUnfiltered(cfg, active, NextIndex(active), block.txs, block.height, logs, p.created, t, env, start,
      deadline, evs);
    RunOneMore(c.cfg, c.m, EventsFor(Flat(logs), t), Block(block.height));
    RunOneMore(c.cfg, c.m, Confirmations(block.txs, block.height), Block(block.height));
  }
}
