/** What a block does to each contract and which duties come of it: the deliveries made, in order, and nothing else. */
module ManagerLedger {
  import opened Collections
  import opened ContractTypes
  import opened ContractSpec
  import opened ContractCache
  import opened ContractBlocks
  import opened ManagerSpec

  datatype Delivery = Delivery(txid: Txid, ev: Event)

  // ---------- the reference: a list of deliveries and its replay ----------

  /** The contracts after a list of deliveries; a delivery to nobody is ignored. */
  function Replay(active: map<Txid, Contract>, log: seq<Delivery>): map<Txid, Contract> {
    if log == [] then active
    else
      var before, d := Replay(active, log[..|log| - 1]), log[|log| - 1];
      if d.txid !in before then before
      else before[d.txid := Contract(before[d.txid].cfg, Step(before[d.txid].cfg, before[d.txid].m, d.ev).0)]
  }

  /** What the last delivery of a list is answered with. */
  function LastOutcome(active: map<Txid, Contract>, log: seq<Delivery>): Outcome
    requires log != []
  {
    var before, d := Replay(active, log[..|log| - 1]), log[|log| - 1];
    if d.txid !in before then Ok([]) else Step(before[d.txid].cfg, before[d.txid].m, d.ev).1
  }

  /** The duties the deliveries are answered with, in order. */
  function Answers(active: map<Txid, Contract>, log: seq<Delivery>): seq<Duty> {
    if log == [] then [] else Answers(active, log[..|log| - 1]) + DutiesOf(LastOutcome(active, log))
  }

  /** A delivery that lets the block go on: accepted, or a deposit confirmation, whose rejection is only logged. */
  predicate Tolerated(d: Delivery, outcome: Outcome) {
    outcome.Ok? || (outcome.Rejected? && d.ev.DepositConfirmation?)
  }

  ghost predicate AllTolerated(active: map<Txid, Contract>, log: seq<Delivery>) {
    forall n | 0 < n <= |log| :: Tolerated(log[n - 1], LastOutcome(active, log[..n]))
  }

  /** The events one contract received. */
  function EventsFor(log: seq<Delivery>, txid: Txid): seq<Event> {
    if log == [] then []
    else EventsFor(log[..|log| - 1], txid) + if log[|log| - 1].txid == txid then [log[|log| - 1].ev] else []
  }

  lemma {:induction false} ReplayKeys(active: map<Txid, Contract>, log: seq<Delivery>)
    ensures Replay(active, log).Keys == active.Keys
    decreases |log|
  {
    hide Step;
    if log != [] { ReplayKeys(active, log[..|log| - 1]); }
  }

  /** Each contract ends as if it had been run over the events it received. */
  lemma {:induction false} ReplayIsRun(active: map<Txid, Contract>, log: seq<Delivery>, txid: Txid)
    requires txid in active
    ensures txid in Replay(active, log)
    ensures Replay(active, log)[txid]
         == Contract(active[txid].cfg, Run(active[txid].cfg, active[txid].m, EventsFor(log, txid)))
    decreases |log|
  {
    hide Step, Run;
    if log == [] {
      NothingRun(active[txid].cfg, active[txid].m);
    } else {
      var front, d := log[..|log| - 1], log[|log| - 1];
      ReplayIsRun(active, front, txid);
      if d.txid == txid {
        RunOneMore(active[txid].cfg, active[txid].m, EventsFor(front, txid), d.ev);
      } else {
        assert EventsFor(log, txid) == EventsFor(front, txid);
      }
    }
  }

  lemma NothingRun(cfg: Cfg, m: Machine)
    ensures Run(cfg, m, []) == m
  {
  }

  lemma ReplayOneMore(active: map<Txid, Contract>, log: seq<Delivery>, d: Delivery)
    requires d.txid in Replay(active, log)
    ensures var c := Replay(active, log)[d.txid]; var (m, outcome) := Step(c.cfg, c.m, d.ev);
      && Replay(active, log + [d]) == Replay(active, log)[d.txid := Contract(c.cfg, m)]
      && LastOutcome(active, log + [d]) == outcome
      && Answers(active, log + [d]) == Answers(active, log) + DutiesOf(outcome)
  {
    hide Step;
    assert (log + [d])[..|log|] == log;
  }

  lemma {:induction false} ReplaySplits(active: map<Txid, Contract>, a: seq<Delivery>, b: seq<Delivery>)
    ensures Replay(active, a + b) == Replay(Replay(active, a), b)
    decreases |b|
  {
    hide Step;
    if b == [] {
      assert a + b == a;
    } else {
      assert (a + b)[..|a + b| - 1] == a + b[..|b| - 1];
      ReplaySplits(active, a, b[..|b| - 1]);
    }
  }

  lemma OutcomeSplits(active: map<Txid, Contract>, a: seq<Delivery>, b: seq<Delivery>)
    requires b != []
    ensures LastOutcome(active, a + b) == LastOutcome(Replay(active, a), b)
  {
    hide Step, Replay;
    assert (a + b)[..|a + b| - 1] == a + b[..|b| - 1];
    ReplaySplits(active, a, b[..|b| - 1]);
  }

  lemma {:induction false} AnswersSplit(active: map<Txid, Contract>, a: seq<Delivery>, b: seq<Delivery>)
    ensures Answers(active, a + b) == Answers(active, a) + Answers(Replay(active, a), b)
    decreases |b|
  {
    hide LastOutcome, Replay, DutiesOf;
    if b == [] {
      assert a + b == a;
    } else {
      assert (a + b)[..|a + b| - 1] == a + b[..|b| - 1];
      AnswersSplit(active, a, b[..|b| - 1]);
      OutcomeSplits(active, a, b);
    }
  }

  lemma ReplayAppend(active: map<Txid, Contract>, a: seq<Delivery>, b: seq<Delivery>)
    ensures Replay(active, a + b) == Replay(Replay(active, a), b)
    ensures b != [] ==> LastOutcome(active, a + b) == LastOutcome(Replay(active, a), b)
    ensures Answers(active, a + b) == Answers(active, a) + Answers(Replay(active, a), b)
  {
    hide Replay, LastOutcome, Answers;
    ReplaySplits(active, a, b);
    AnswersSplit(active, a, b);
    if b != [] { OutcomeSplits(active, a, b); }
  }

  lemma ToleratedAppend(active: map<Txid, Contract>, a: seq<Delivery>, b: seq<Delivery>)
    requires AllTolerated(active, a) && AllTolerated(Replay(active, a), b)
    ensures AllTolerated(active, a + b)
  {
    hide Replay, LastOutcome, Tolerated;
    forall n | 0 < n <= |a + b| ensures Tolerated((a + b)[n - 1], LastOutcome(active, (a + b)[..n])) {
      if n <= |a| {
        assert (a + b)[..n] == a[..n];
      } else {
        assert (a + b)[..n] == a + b[..n - |a|];
        ReplayAppend(active, a, b[..n - |a|]);
      }
    }
  }

  // ---------- the manager's books ----------

  function ContractDuties(duties: seq<ManagerDuty>): seq<Duty> {
    if duties == [] then []
    else
      var d := duties[|duties| - 1];
      ContractDuties(duties[..|duties| - 1]) + if d.FromContract? then [d.duty] else []
  }

  function SetupDuties(duties: seq<ManagerDuty>): seq<ManagerDuty> {
    if duties == [] then []
    else
      var d := duties[|duties| - 1];
      SetupDuties(duties[..|duties| - 1]) + if d.PublishDepositSetup? then [d] else []
  }

  lemma {:induction false} WrapAdds(duties: seq<ManagerDuty>, more: seq<Duty>)
    ensures ContractDuties(duties + Wrap(more)) == ContractDuties(duties) + more
    ensures SetupDuties(duties + Wrap(more)) == SetupDuties(duties)
    decreases |more|
  {
    if more == [] {
      assert duties + Wrap(more) == duties;
    } else {
      var front := more[..|more| - 1];
      var all := duties + Wrap(more);
      assert all[..|all| - 1] == duties + Wrap(front);
      WrapAdds(duties, front);
    }
  }

  /** The step from one progress to another is exactly a list of deliveries; nothing is created. */
  ghost predicate Booked(p: Progress, log: seq<Delivery>, p': Progress) {
    && p'.active == Replay(p.active, log) && p'.created == p.created
    && ContractDuties(p'.duties) == ContractDuties(p.duties) + Answers(p.active, log)
    && SetupDuties(p'.duties) == SetupDuties(p.duties)
  }

  /** Why a step stopped: its last delivery was rejected or panicked. */
  ghost predicate StoppedBy(active: map<Txid, Contract>, log: seq<Delivery>, status: Status) {
    && log != []
    && var outcome := LastOutcome(active, log);
       if outcome.Panic? then status == Crashed
       else outcome.Rejected? && !log[|log| - 1].ev.DepositConfirmation? && status == Failed
  }

  lemma NothingBooked(p: Progress)
    ensures Booked(p, [], p) && AllTolerated(p.active, [])
  {
    assert ContractDuties(p.duties) + [] == ContractDuties(p.duties);
  }

  /** One more delivery is booked, whatever it is answered with. */
  lemma DeliverBooked(p: Progress, log: seq<Delivery>, p1: Progress, txid: Txid, ev: Event)
    requires Booked(p, log, p1) && AllTolerated(p.active, log) && p1.status == Running && txid in p1.active
    ensures var p2 := Deliver(p1, txid, ev, ev.DepositConfirmation?); var log' := log + [Delivery(txid, ev)];
      && Booked(p, log', p2)
      && (if p2.status == Running then AllTolerated(p.active, log') else StoppedBy(p.active, log', p2.status))
  {
    hide Step, Wrap, Replay, Answers, LastOutcome, ContractDuties, SetupDuties;
    var c := p1.active[txid];
    var (m, outcome) := Step(c.cfg, c.m, ev);
    ReplayOneMore(p.active, log, Delivery(txid, ev));
    if outcome.Ok? { WrapAdds(p1.duties, outcome.duties); }
    assert ContractDuties(p.duties) + (Answers(p.active, log) + DutiesOf(outcome))
        == (ContractDuties(p.duties) + Answers(p.active, log)) + DutiesOf(outcome);
    var log' := log + [Delivery(txid, ev)];
    if Tolerated(Delivery(txid, ev), outcome) { ToleratedOneMore(p.active, log, Delivery(txid, ev)); }
  }

  lemma ToleratedOneMore(active: map<Txid, Contract>, log: seq<Delivery>, d: Delivery)
    requires AllTolerated(active, log) && Tolerated(d, LastOutcome(active, log + [d]))
    ensures AllTolerated(active, log + [d])
  {
    hide LastOutcome, Tolerated;
    var log' := log + [d];
    forall n | 0 < n <= |log'| ensures Tolerated(log'[n - 1], LastOutcome(active, log'[..n])) {
      if n <= |log| { assert log'[..n] == log[..n]; } else { assert log'[..n] == log'; }
    }
  }

  // ---------- assignments ----------

  /** The assignments a checkpoint transaction calls for: its dispatched entries in order, each with this node's stake
      transaction for it. */
  function AssignmentLog(cfg: ManagerCfg, entries: seq<AssignedEntry>, l1: Height): seq<Delivery> {
    if entries == [] then []
    else
      var a := entries[|entries| - 1];
      var stakeTx := cfg.ownStakeTx(StakeQuery(a.entry.idx));
      AssignmentLog(cfg, entries[..|entries| - 1], l1) +
      if a.entry.dispatched.Some? && stakeTx.Some?
      then [Delivery(a.depositTxid, Assignment(a.entry, stakeTx.value, l1))] else []
  }

  function CheckpointLog(cfg: ManagerCfg, tx: Tx): seq<Delivery> {
    match cfg.parseCheckpoint(tx)
    case None => []
    case Some(checkpoint) => AssignmentLog(cfg, checkpoint.entries, checkpoint.l1StartHeight)
  }

  /** A dispatched entry names a deposit without a contract. */
  ghost predicate UnknownDeposit(cfg: ManagerCfg, keys: set<Txid>, tx: Tx) {
    var checkpoint := cfg.parseCheckpoint(tx);
    checkpoint.Some? && HasUnknown(keys, checkpoint.value.entries)
  }

  ghost predicate HasUnknown(keys: set<Txid>, entries: seq<AssignedEntry>) {
    exists a :: a in entries && a.entry.dispatched.Some? && a.depositTxid !in keys
  }

  lemma {:induction false} AssignAllBooked(cfg: ManagerCfg, p: Progress, entries: seq<AssignedEntry>, l1: Height)
    returns (log: seq<Delivery>)
    requires p.status == Running
    ensures var p' := AssignAll(cfg, p, entries, l1);
      && Booked(p, log, p')
      && (if p'.status == Running then log == AssignmentLog(cfg, entries, l1) && AllTolerated(p.active, log)
          else StoppedBy(p.active, log, p'.status) || (p'.status == Crashed && HasUnknown(p.active.Keys, entries)))
    decreases |entries|
  {
    hide Booked, AllTolerated, StoppedBy, Deliver, Replay;
    if entries == [] {
      NothingBooked(p);
      log := [];
    } else {
      var front, a := entries[..|entries| - 1], entries[|entries| - 1];
      assert a in entries && forall x | x in front :: x in entries;
      log := AssignAllBooked(cfg, p, front, l1);
      var before := AssignAll(cfg, p, front, l1);
      BookedKeys(p, log, before);
      if before.status == Running && a.entry.dispatched.Some? {
        if a.depositTxid !in before.active {
          StatusIsNotBooked(p, log, before, Crashed);
        } else {
          match cfg.ownStakeTx(StakeQuery(a.entry.idx))
          case None =>
          case Some(stakeTx) =>
            DeliverBooked(p, log, before, a.depositTxid, Assignment(a.entry, stakeTx, l1));
            log := log + [Delivery(a.depositTxid, Assignment(a.entry, stakeTx, l1))];
        }
      }
    }
  }

  lemma BookedKeys(p: Progress, log: seq<Delivery>, p': Progress)
    requires Booked(p, log, p')
    ensures p'.active.Keys == p.active.Keys
  {
    ReplayKeys(p.active, log);
  }

  lemma StatusIsNotBooked(p: Progress, log: seq<Delivery>, p': Progress, status: Status)
    requires Booked(p, log, p')
    ensures Booked(p, log, p'.(status := status))
  {
  }

  lemma AssignmentsBooked(cfg: ManagerCfg, p: Progress, tx: Tx) returns (log: seq<Delivery>)
    requires p.status == Running
    ensures var p' := Assignments(cfg, p, tx);
      && Booked(p, log, p')
      && (if p'.status == Running then log == CheckpointLog(cfg, tx) && AllTolerated(p.active, log)
          else StoppedBy(p.active, log, p'.status) || (p'.status == Crashed && UnknownDeposit(cfg, p.active.Keys, tx)))
  {
    hide Booked, AllTolerated, StoppedBy, AssignAll, AssignmentLog, HasUnknown;
    match cfg.parseCheckpoint(tx)
    case None =>
      NothingBooked(p);
      log := [];
    case Some(checkpoint) => log := AssignAllBooked(cfg, p, checkpoint.entries, checkpoint.l1StartHeight);
  }

  // ---------- confirmations ----------

  /** The transaction goes to every contract that has not seen this block and wants it. */
  function OfferLog(active: map<Txid, Contract>, txids: seq<Txid>, tx: Tx, height: Height): seq<Delivery>
    requires forall t | t in txids :: t in active
  {
    if txids == [] then []
    else
      var t := txids[|txids| - 1];
      OfferLog(active, txids[..|txids| - 1], tx, height) +
      if active[t].m.blockHeight < height && TransactionFilter(active[t], tx)
      then [Delivery(t, PegOutGraphConfirmation(tx, height))] else []
  }

  lemma {:induction false} OthersUntouched(active: map<Txid, Contract>, log: seq<Delivery>, txid: Txid)
    requires txid in active && forall d | d in log :: d.txid != txid
    ensures txid in Replay(active, log) && Replay(active, log)[txid] == active[txid]
    decreases |log|
  {
    hide Step;
    if log != [] {
      var front, d := log[..|log| - 1], log[|log| - 1];
      assert d in log && forall x | x in front :: x in log;
      OthersUntouched(active, front, txid);
    }
  }

  lemma {:induction false} OfferedTo(active: map<Txid, Contract>, txids: seq<Txid>, tx: Tx, height: Height)
    requires forall t | t in txids :: t in active
    ensures forall d | d in OfferLog(active, txids, tx, height) :: d.txid in txids
    decreases |txids|
  {
    hide TransactionFilter;
    if txids != [] {
      var front, t := txids[..|txids| - 1], txids[|txids| - 1];
      assert t in txids && forall x | x in front :: x in txids;
      OfferedTo(active, front, tx, height);
    }
  }

  lemma FrontWithout(txids: seq<Txid>)
    requires txids != [] && NoDup(txids)
    ensures NoDup(txids[..|txids| - 1]) && txids[|txids| - 1] !in txids[..|txids| - 1]
  {
    var last := |txids| - 1;
    var front := txids[..last];
    forall i: nat, j: nat | i < |front| && j < |front| && Before(i, j) ensures front[i] != front[j] {
      assert txids[i] != txids[j];
    }
    forall i: nat | i < last ensures front[i] != txids[last] { assert Before(i, last); }
  }

  lemma {:induction false} OfferAllBooked(p: Progress, txids: seq<Txid>, tx: Tx, height: Height)
    returns (log: seq<Delivery>)
    requires p.status == Running && NoDup(txids) && forall t | t in txids :: t in p.active
    ensures var p' := OfferAll(p, txids, tx, height);
      && Booked(p, log, p')
      && (if p'.status == Running then log == OfferLog(p.active, txids, tx, height) && AllTolerated(p.active, log)
          else StoppedBy(p.active, log, p'.status))
    decreases |txids|
  {
    hide Booked, AllTolerated, StoppedBy, Deliver, Replay, TransactionFilter, NoDup;
    if txids == [] {
      NothingBooked(p);
      log := [];
    } else {
      var front, t := txids[..|txids| - 1], txids[|txids| - 1];
      assert t in txids && forall x | x in front :: x in txids;
      FrontWithout(txids);
      log := OfferAllBooked(p, front, tx, height);
      var before := OfferAll(p, front, tx, height);
      if before.status == Running {
        OfferedTo(p.active, front, tx, height);
        assert forall d | d in log :: d.txid != t;
        OthersUntouched(p.active, log, t);
        BookedActive(p, log, before);
        if before.active[t].m.blockHeight < height && TransactionFilter(before.active[t], tx) {
          DeliverBooked(p, log, before, t, PegOutGraphConfirmation(tx, height));
          log := log + [Delivery(t, PegOutGraphConfirmation(tx, height))];
        }
      }
    }
  }

  lemma BookedActive(p: Progress, log: seq<Delivery>, p': Progress)
    requires Booked(p, log, p')
    ensures p'.active == Replay(p.active, log)
  {
  }

  // ---------- the block itself ----------

  function BlockLog(txids: seq<Txid>, height: Height): seq<Delivery> {
    seq(|txids|, i requires 0 <= i < |txids| => Delivery(txids[i], Block(height)))
  }

  lemma {:induction false} NotifyAllBooked(p: Progress, txids: seq<Txid>, height: Height) returns (log: seq<Delivery>)
    requires p.status == Running && forall t | t in txids :: t in p.active
    ensures var p' := NotifyAll(p, txids, height);
      && Booked(p, log, p')
      && (if p'.status == Running then log == BlockLog(txids, height) && AllTolerated(p.active, log)
          else StoppedBy(p.active, log, p'.status))
    decreases |txids|
  {
    hide Booked, AllTolerated, StoppedBy, Deliver;
    if txids == [] {
      NothingBooked(p);
      log := [];
    } else {
      var front, t := txids[..|txids| - 1], txids[|txids| - 1];
      assert t in txids && forall x | x in front :: x in txids;
      log := NotifyAllBooked(p, front, height);
      var before := NotifyAll(p, front, height);
      if before.status == Running {
        DeliverBooked(p, log, before, t, Block(height));
        log := log + [Delivery(t, Block(height))];
        assert BlockLog(txids, height) == BlockLog(front, height) + [Delivery(t, Block(height))];
      }
    }
  }

  // ---------- one transaction ----------

  /** What a transaction leads to when nothing stops it: its assignments, and if they asked for nothing and it is no
      deposit request, the confirmation of a deposit or the offer to every contract that wants it. */
  ghost predicate Delivered(cfg: ManagerCfg, active: map<Txid, Contract>, idx: nat, tx: Tx, height: Height,
      log: seq<Delivery>)
  {
    var called := CheckpointLog(cfg, tx);
    var now := Replay(active, called);
    && called <= log
    && var rest := log[|called|..];
       if Answers(active, called) != [] || !cfg.requestInfo(RequestQuery(tx, idx)).NotARequest? then rest == []
       else if tx.txid in now then
         rest == if now[tx.txid].m.blockHeight < height then [Delivery(tx.txid, DepositConfirmation(tx))] else []
       else rest == OfferLog(now, Sorted(now.Keys), tx, height)
  }

  /** A contract the transaction asks for: filed under the deposit it requests, with the given index, at this height,
      waiting for its deposit as long as the refund delay allows. */
  ghost predicate RequestedBy(cfg: ManagerCfg, tx: Tx, idx: nat, height: Height, c: Contract) {
    && cfg.requestInfo(RequestQuery(tx, idx)) == DepositFor(c.cfg.depositTxid)
    && c.cfg.depositIdx == idx && c.cfg.depositRequestTxid == tx.txid
    && c.cfg.(depositIdx := cfg.base.depositIdx, depositTxid := cfg.base.depositTxid,
              depositRequestTxid := cfg.base.depositRequestTxid) == cfg.base
    && c.m == InitialState(c.cfg, height, height + cfg.refundDelay)
  }

  /** The transaction requests a deposit that has no contract yet, and nothing was assigned by it. */
  ghost predicate Creates(cfg: ManagerCfg, active: map<Txid, Contract>, idx: nat, tx: Tx) {
    && Answers(active, CheckpointLog(cfg, tx)) == []
    && var info := cfg.requestInfo(RequestQuery(tx, idx)); info.DepositFor? && info.depositTxid !in active
  }

  /** The step over a transaction: its deliveries, and a new contract with its setup duty if it requests one. */
  ghost predicate TxBooked(cfg: ManagerCfg, idx: nat, p: Progress, tx: Tx, height: Height, log: seq<Delivery>,
      p': Progress)
  {
    && p'.active == Replay(p.active, log)
    && ContractDuties(p'.duties) == ContractDuties(p.duties) + Answers(p.active, log)
    && (if Creates(cfg, p.active, idx, tx) then
          && |p'.created| == |p.created| + 1 && p'.created[..|p.created|] == p.created
          && RequestedBy(cfg, tx, idx, height, p'.created[|p.created|])
          && SetupDuties(p'.duties)
             == SetupDuties(p.duties) + [PublishDepositSetup(p'.created[|p.created|].cfg.depositTxid, idx)]
        else p'.created == p.created && SetupDuties(p'.duties) == SetupDuties(p.duties))
  }

  /** Why a transaction stopped the block. */
  ghost predicate TxStopped(cfg: ManagerCfg, active: map<Txid, Contract>, tx: Tx, log: seq<Delivery>, status: Status) {
    || StoppedBy(active, log, status)
    || (status == Crashed && (UnknownDeposit(cfg, active.Keys, tx) || !cfg.ownChainKnown))
  }

  lemma {:induction false} DutiesGrow(p: Progress, log: seq<Delivery>, p': Progress)
    requires Booked(p, log, p') && p.duties <= p'.duties
    ensures |p'.duties| > |p.duties| <==> Answers(p.active, log) != []
  {
    hide Answers, Replay;
    if |p'.duties| == |p.duties| { assert p'.duties == p.duties; }
    if |p'.duties| > |p.duties| { MoreDuties(p.duties, p'.duties); }
  }

  lemma {:induction false} MoreDuties(a: seq<ManagerDuty>, b: seq<ManagerDuty>)
    requires a <= b
    ensures |ContractDuties(b)| + |SetupDuties(b)| - |ContractDuties(a)| - |SetupDuties(a)| == |b| - |a|
    decreases |b|
  {
    if |a| == |b| {
      assert a == b;
    } else {
      MoreDuties(a, b[..|b| - 1]);
    }
  }

  lemma {:induction false} AssignGrows(cfg: ManagerCfg, p: Progress, entries: seq<AssignedEntry>, l1: Height)
    ensures p.duties <= AssignAll(cfg, p, entries, l1).duties
    decreases |entries|
  {
    hide Step, Wrap;
    if entries != [] { AssignGrows(cfg, p, entries[..|entries| - 1], l1); }
  }

  lemma AssignmentsGrow(cfg: ManagerCfg, p: Progress, tx: Tx)
    ensures p.duties <= Assignments(cfg, p, tx).duties
  {
    hide AssignAll;
    if cfg.parseCheckpoint(tx).Some? {
      AssignGrows(cfg, p, cfg.parseCheckpoint(tx).value.entries, cfg.parseCheckpoint(tx).value.l1StartHeight);
    }
  }

  lemma BookedThen(p: Progress, a: seq<Delivery>, p1: Progress, b: seq<Delivery>, p2: Progress)
    requires Booked(p, a, p1) && Booked(p1, b, p2)
    ensures Booked(p, a + b, p2)
  {
    hide Replay, Answers, ContractDuties, SetupDuties;
    ReplayAppend(p.active, a, b);
    assert (ContractDuties(p.duties) + Answers(p.active, a)) + Answers(p1.active, b)
        == ContractDuties(p.duties) + (Answers(p.active, a) + Answers(p1.active, b));
  }

  lemma StoppedLater(active: map<Txid, Contract>, a: seq<Delivery>, b: seq<Delivery>, status: Status)
    requires StoppedBy(Replay(active, a), b, status)
    ensures StoppedBy(active, a + b, status)
  {
    hide Replay, LastOutcome;
    ReplayAppend(active, a, b);
  }

  lemma SortedIsNoDup(s: set<nat>)
    ensures NoDup(Sorted(s)) && forall x | x in Sorted(s) :: x in s
  {
    var q := Sorted(s);
    forall i: nat, j: nat | i < |q| && j < |q| && Before(i, j) ensures q[i] != q[j] { assert q[i] < q[j]; }
  }

  lemma BookedMeansTxBooked(cfg: ManagerCfg, idx: nat, p: Progress, tx: Tx, height: Height, log: seq<Delivery>,
      p': Progress)
    requires Booked(p, log, p') && !Creates(cfg, p.active, idx, tx)
    ensures TxBooked(cfg, idx, p, tx, height, log, p')
  {
  }

  lemma SetupAdds(duties: seq<ManagerDuty>, depositTxid: Txid, idx: nat)
    ensures var more := duties + [PublishDepositSetup(depositTxid, idx)];
      && ContractDuties(more) == ContractDuties(duties)
      && SetupDuties(more) == SetupDuties(duties) + [PublishDepositSetup(depositTxid, idx)]
  {
    var more := duties + [PublishDepositSetup(depositTxid, idx)];
    assert more[..|more| - 1] == duties;
  }

  /** A transaction that requests a new deposit gets its contract. */
  lemma RequestBooked(cfg: ManagerCfg, idx: nat, p: Progress, tx: Tx, height: Height, log: seq<Delivery>, p1: Progress,
      depositTxid: Txid)
    requires Booked(p, log, p1) && log == CheckpointLog(cfg, tx) && Answers(p.active, log) == []
    requires cfg.requestInfo(RequestQuery(tx, idx)) == DepositFor(depositTxid) && depositTxid !in p.active
    ensures TxBooked(cfg, idx, p, tx, height, log,
      p1.(created := p1.created + [NewContract(cfg, height, tx.txid, depositTxid, idx)],
          duties := p1.duties + [PublishDepositSetup(depositTxid, idx)]))
  {
    hide Replay, Answers, ContractDuties, SetupDuties, CheckpointLog, InitialState;
    SetupAdds(p1.duties, depositTxid, idx);
  }

  /** One transaction: if the block goes on, everything it leads to has been delivered and tolerated; if it stops, the
      last delivery stopped it, or an entry without a contract, or this node's own stake chain is missing. */
  lemma TxStepBooked(cfg: ManagerCfg, offset: nat, p: Progress, tx: Tx, height: Height) returns (log: seq<Delivery>)
    requires p.status == Running
    ensures var p' := TxStep(cfg, offset, p, tx, height); var idx := offset + |p.created|;
      if p'.status == Running then
        && TxBooked(cfg, idx, p, tx, height, log, p') && AllTolerated(p.active, log)
        && Delivered(cfg, p.active, idx, tx, height, log)
      else Booked(p, log, p') && TxStopped(cfg, p.active, tx, log, p'.status)
  {
    hide Booked, AllTolerated, StoppedBy, Deliver, OfferAll, Assignments, Sorted, CheckpointLog, Answers, Replay;
    hide UnknownDeposit, TxBooked, Creates, OfferLog, NewContract;
    var idx := offset + |p.created|;
    var p1 := Assignments(cfg, p, tx);
    log := AssignmentsBooked(cfg, p, tx);
    BookedFacts(p, log, p1);
    AssignmentsGrow(cfg, p, tx);
    DutiesGrow(p, log, p1);
    if p1.status == Running {
      DeliveredAssignments(cfg, p.active, idx, tx, height, log);
      CreatesIff(cfg, p.active, idx, tx);
      if Answers(p.active, log) != [] {
        BookedMeansTxBooked(cfg, idx, p, tx, height, log, p1);
      } else {
        match cfg.requestInfo(RequestQuery(tx, idx))
        case InvalidRequest =>
          BookedMeansTxBooked(cfg, idx, p, tx, height, log, p1);
        case DepositFor(depositTxid) =>
          if depositTxid in p1.active {
            BookedMeansTxBooked(cfg, idx, p, tx, height, log, p1);
          } else if cfg.ownChainKnown {
            RequestBooked(cfg, idx, p, tx, height, log, p1, depositTxid);
          } else {
            StatusIsNotBooked(p, log, p1, Crashed);
          }
        case NotARequest =>
          log := ConfirmationBooked(cfg, idx, p, tx, height, log, p1);
      }
    }
  }

  lemma BookedFacts(p: Progress, log: seq<Delivery>, p': Progress)
    requires Booked(p, log, p')
    ensures p'.active == Replay(p.active, log) && p'.active.Keys == p.active.Keys && p'.created == p.created
  {
    ReplayKeys(p.active, log);
  }

  lemma DeliveredAssignments(cfg: ManagerCfg, active: map<Txid, Contract>, idx: nat, tx: Tx, height: Height,
      log: seq<Delivery>)
    requires log == CheckpointLog(cfg, tx)
    ensures Answers(active, log) != [] || !cfg.requestInfo(RequestQuery(tx, idx)).NotARequest? ==>
      Delivered(cfg, active, idx, tx, height, log)
  {
    hide CheckpointLog, Answers, Replay, OfferLog, Sorted;
  }

  lemma CreatesIff(cfg: ManagerCfg, active: map<Txid, Contract>, idx: nat, tx: Tx)
    ensures Creates(cfg, active, idx, tx) <==>
      && Answers(active, CheckpointLog(cfg, tx)) == [] && cfg.requestInfo(RequestQuery(tx, idx)).DepositFor?
      && cfg.requestInfo(RequestQuery(tx, idx)).depositTxid !in active
  {
  }

  /** Neither assignment nor request: the confirmation of a deposit, or offered to everyone who wants it. */
  lemma ConfirmationBooked(cfg: ManagerCfg, idx: nat, p: Progress, tx: Tx, height: Height, log: seq<Delivery>,
      p1: Progress)
    returns (all: seq<Delivery>)
    requires Booked(p, log, p1) && p1.status == Running && AllTolerated(p.active, log)
    requires log == CheckpointLog(cfg, tx) && Answers(p.active, log) == []
    requires cfg.requestInfo(RequestQuery(tx, idx)).NotARequest?
    ensures var p' :=
        if tx.txid in p1.active then
          if p1.active[tx.txid].m.blockHeight >= height then p1 else Deliver(p1, tx.txid, DepositConfirmation(tx), true)
        else OfferAll(p1, Sorted(p1.active.Keys), tx, height);
      if p'.status == Running then
        && TxBooked(cfg, idx, p, tx, height, all, p') && AllTolerated(p.active, all)
        && Delivered(cfg, p.active, idx, tx, height, all)
      else Booked(p, all, p') && StoppedBy(p.active, all, p'.status)
  {
    hide Booked, AllTolerated, StoppedBy, Deliver, OfferAll, Sorted, CheckpointLog, Answers, Replay, TxBooked, OfferLog;
    BookedFacts(p, log, p1);
    CreatesIff(cfg, p.active, idx, tx);
    if tx.txid in p1.active {
      if p1.active[tx.txid].m.blockHeight >= height {
        all := log;
        BookedMeansTxBooked(cfg, idx, p, tx, height, all, p1);
        assert all[|log|..] == [];
      } else {
        all := log + [Delivery(tx.txid, DepositConfirmation(tx))];
        DeliverBooked(p, log, p1, tx.txid, DepositConfirmation(tx));
        BookedMeansTxBooked(cfg, idx, p, tx, height, all, Deliver(p1, tx.txid, DepositConfirmation(tx), true));
        assert all[|log|..] == [Delivery(tx.txid, DepositConfirmation(tx))];
      }
    } else {
      SortedIsNoDup(p1.active.Keys);
      var rest := OfferAllBooked(p1, Sorted(p1.active.Keys), tx, height);
      all := log + rest;
      var p' := OfferAll(p1, Sorted(p1.active.Keys), tx, height);
      BookedThen(p, log, p1, rest, p');
      assert all[|log|..] == rest;
      if p'.status == Running {
        ToleratedAppend(p.active, log, rest);
        BookedMeansTxBooked(cfg, idx, p, tx, height, all, p');
      } else {
        StoppedLater(p.active, log, rest, p'.status);
      }
    }
  }

  // ---------- all transactions ----------

  function Flat(logs: seq<seq<Delivery>>): seq<Delivery> {
    if logs == [] then [] else Flat(logs[..|logs| - 1]) + logs[|logs| - 1]
  }

  /** The transactions of a block in turn: each delivers what it leads to in the state its predecessors left, and the
      contracts created are those requested, numbered from `offset` on. */
  ghost predicate InTurn(cfg: ManagerCfg, active: map<Txid, Contract>, offset: nat, txs: seq<Tx>, height: Height,
      logs: seq<seq<Delivery>>, created: seq<Contract>)
    decreases |txs|
  {
    && |logs| == |txs|
    && if txs == [] then created == []
       else
         var last := |txs| - 1;
         var now := Replay(active, Flat(logs[..last]));
         || (&& created != []
             && var before := created[..|created| - 1];
                && InTurn(cfg, active, offset, txs[..last], height, logs[..last], before)
                && Creates(cfg, now, offset + |before|, txs[last])
                && RequestedBy(cfg, txs[last], offset + |before|, height, created[|before|])
                && Delivered(cfg, now, offset + |before|, txs[last], height, logs[last]))
         || (&& InTurn(cfg, active, offset, txs[..last], height, logs[..last], created)
             && !Creates(cfg, now, offset + |created|, txs[last])
             && Delivered(cfg, now, offset + |created|, txs[last], height, logs[last]))
  }

  function SetupsFor(created: seq<Contract>): seq<ManagerDuty> {
    seq(|created|, i requires 0 <= i < |created| =>
      PublishDepositSetup(created[i].cfg.depositTxid, created[i].cfg.depositIdx))
  }

  /** The block so far: contracts and duties come from the deliveries, setup duties from the contracts created. */
  ghost predicate BlockBooked(active: map<Txid, Contract>, log: seq<Delivery>, p: Progress) {
    && p.active == Replay(active, log) && ContractDuties(p.duties) == Answers(active, log)
    && SetupDuties(p.duties) == SetupsFor(p.created)
  }

  /** Why a block stopped. */
  ghost predicate BlockStopped(cfg: ManagerCfg, active: map<Txid, Contract>, txs: seq<Tx>, log: seq<Delivery>,
      status: Status)
  {
    || StoppedBy(active, log, status)
    || (status == Crashed && (!cfg.ownChainKnown || exists tx :: tx in txs && UnknownDeposit(cfg, active.Keys, tx)))
  }

  lemma TxBookedThen(cfg: ManagerCfg, idx: nat, active: map<Txid, Contract>, a: seq<Delivery>, p: Progress, tx: Tx,
      height: Height, b: seq<Delivery>, p': Progress)
    requires BlockBooked(active, a, p) && TxBooked(cfg, idx, p, tx, height, b, p')
    ensures BlockBooked(active, a + b, p')
  {
    hide Replay, Answers, ContractDuties, SetupDuties, Creates;
    ReplayAppend(active, a, b);
    if Creates(cfg, p.active, idx, tx) {
      var c := p'.created[|p.created|];
      assert SetupsFor(p'.created) == SetupsFor(p.created) + [PublishDepositSetup(c.cfg.depositTxid, idx)];
    }
  }

  lemma BookedInBlock(active: map<Txid, Contract>, a: seq<Delivery>, p: Progress, b: seq<Delivery>, p': Progress)
    requires BlockBooked(active, a, p) && Booked(p, b, p')
    ensures BlockBooked(active, a + b, p')
  {
    hide Replay, Answers, ContractDuties, SetupDuties;
    ReplayAppend(active, a, b);
  }

  lemma InTurnOneMore(cfg: ManagerCfg, offset: nat, active: map<Txid, Contract>, txs: seq<Tx>, tx: Tx, height: Height,
      logs: seq<seq<Delivery>>, log: seq<Delivery>, p: Progress, p': Progress)
    requires InTurn(cfg, active, offset, txs, height, logs, p.created) && p.active == Replay(active, Flat(logs))
    requires TxBooked(cfg, offset + |p.created|, p, tx, height, log, p')
    requires Delivered(cfg, p.active, offset + |p.created|, tx, height, log)
    ensures InTurn(cfg, active, offset, txs + [tx], height, logs + [log], p'.created)
  {
    hide Replay, Answers, ContractDuties, SetupDuties, Creates, Delivered, RequestedBy, Flat;
    assert (txs + [tx])[..|txs|] == txs && (logs + [log])[..|logs|] == logs;
    if Creates(cfg, p.active, offset + |p.created|, tx) {
      assert p'.created[..|p'.created| - 1] == p.created;
    }
  }

  lemma FlatOneMore(logs: seq<seq<Delivery>>, log: seq<Delivery>)
    ensures Flat(logs + [log]) == Flat(logs) + log
  {
    assert (logs + [log])[..|logs|] == logs;
  }

  lemma {:induction false} TxStepsBooked(cfg: ManagerCfg, offset: nat, active: map<Txid, Contract>, txs: seq<Tx>,
      height: Height)
    returns (logs: seq<seq<Delivery>>, log: seq<Delivery>)
    ensures var p' := TxSteps(cfg, offset, Progress(active, [], [], Running), txs, height);
      && BlockBooked(active, log, p')
      && (if p'.status == Running then
            && log == Flat(logs) && AllTolerated(active, log)
            && InTurn(cfg, active, offset, txs, height, logs, p'.created)
          else BlockStopped(cfg, active, txs, log, p'.status))
    decreases |txs|
  {
    hide BlockBooked, AllTolerated, TxStep, InTurn, Flat, StoppedBy, TxBooked, Delivered, UnknownDeposit, Booked;
    hide Replay;
    if txs == [] {
      logs, log := [], [];
      EmptyBlock(cfg, offset, active, height);
    } else {
      var last := |txs| - 1;
      var front, tx := txs[..last], txs[last];
      assert txs == front + [tx] && tx in txs && forall x | x in front :: x in txs;
      logs, log := TxStepsBooked(cfg, offset, active, front, height);
      var before := TxSteps(cfg, offset, Progress(active, [], [], Running), front, height);
      if before.status == Running {
        var more := TxStepBooked(cfg, offset, before, tx, height);
        var p' := TxStep(cfg, offset, before, tx, height);
        BlockBookedActive(active, log, before);
        if p'.status == Running {
          TxBookedThen(cfg, offset + |before.created|, active, log, before, tx, height, more, p');
          ToleratedAppend(active, log, more);
          InTurnOneMore(cfg, offset, active, front, tx, height, logs, more, before, p');
          FlatOneMore(logs, more);
          logs := logs + [more];
        } else {
          BookedInBlock(active, log, before, more, p');
          if StoppedBy(before.active, more, p'.status) { StoppedLater(active, log, more, p'.status); }
        }
        log := log + more;
      }
    }
  }

  lemma EmptyBlock(cfg: ManagerCfg, offset: nat, active: map<Txid, Contract>, height: Height)
    ensures BlockBooked(active, [], Progress(active, [], [], Running)) && AllTolerated(active, []) && Flat([]) == []
    ensures InTurn(cfg, active, offset, [], height, [], [])
  {
  }

  lemma BlockBookedActive(active: map<Txid, Contract>, log: seq<Delivery>, p: Progress)
    requires BlockBooked(active, log, p)
    ensures p.active == Replay(active, log) && p.active.Keys == active.Keys
  {
    ReplayKeys(active, log);
  }

  // ---------- the whole block ----------

  /** For every block: what it does to the contracts and the duties it returns are exactly those of a list of
      deliveries.  If it succeeds, these are what each transaction leads to, in turn, followed by the block itself for
      everyone, all tolerated, and one setup duty for each contract created; if it stops, the last delivery stopped it,
      or an assignment without a contract, or this node's own stake chain is missing. */
  lemma BlockLedger(cfg: ManagerCfg, active: map<Txid, Contract>, block: BlockData)
    returns (logs: seq<seq<Delivery>>, log: seq<Delivery>)
    ensures var p := BlockStep(cfg, active, block);
      && ContractDuties(p.duties) == Answers(active, log) && SetupDuties(p.duties) == SetupsFor(p.created)
      && (if p.status == Running then
            && log == Flat(logs) + BlockLog(Sorted(active.Keys), block.height) && AllTolerated(active, log)
            && InTurn(cfg, active, NextIndex(active), block.txs, block.height, logs, p.created)
            && p.active == FileAll(Replay(active, log), p.created)
          else p.active == Replay(active, log) && BlockStopped(cfg, active, block.txs, log, p.status))
  {
    hide TxSteps, NotifyAll, Sorted, NextIndex, FileAll, Replay, Answers, ContractDuties, SetupDuties, SetupsFor;
    hide InTurn;
    hide AllTolerated, StoppedBy, UnknownDeposit, Flat, BlockLog;
    logs, log := TxStepsBooked(cfg, NextIndex(active), active, block.txs, block.height);
    var p := TxSteps(cfg, NextIndex(active), Progress(active, [], [], Running), block.txs, block.height);
    if p.status == Running {
      BlockBookedActive(active, log, p);
      SortedIsNoDup(p.active.Keys);
      var more := NotifyAllBooked(p, Sorted(p.active.Keys), block.height);
      var p' := NotifyAll(p, Sorted(p.active.Keys), block.height);
      BookedFacts(p, more, p');
      BookedInBlock(active, log, p, more, p');
      if p'.status == Running {
        ToleratedAppend(active, log, more);
      } else {
        StoppedLater(active, log, more, p'.status);
      }
      log := log + more;
    }
  }

  // ---------- what it means for one contract ----------

  lemma {:induction false} EventsAppend(a: seq<Delivery>, b: seq<Delivery>, txid: Txid)
    ensures EventsFor(a + b, txid) == EventsFor(a, txid) + EventsFor(b, txid)
    decreases |b|
  {
    if b == [] {
      assert a + b == a;
    } else {
      assert (a + b)[..|a + b| - 1] == a + b[..|b| - 1];
      EventsAppend(a, b[..|b| - 1], txid);
    }
  }

  lemma {:induction false} BlockEvents(txids: seq<Txid>, height: Height, txid: Txid)
    requires NoDup(txids)
    ensures EventsFor(BlockLog(txids, height), txid) == if txid in txids then [Block(height)] else []
    decreases |txids|
  {
    hide NoDup;
    if txids != [] {
      var last := |txids| - 1;
      FrontWithout(txids);
      var front := txids[..last];
      BlockEvents(front, height, txid);
      var log := BlockLog(txids, height);
      assert log[..last] == BlockLog(front, height) && log[last] == Delivery(txids[last], Block(height));
      assert txids == front + [txids[last]];
    }
  }

  lemma {:induction false} CreatedAreNew(cfg: ManagerCfg, active: map<Txid, Contract>, offset: nat, txs: seq<Tx>,
      height: Height, logs: seq<seq<Delivery>>, created: seq<Contract>)
    requires InTurn(cfg, active, offset, txs, height, logs, created)
    ensures forall c | c in created :: c.cfg.depositTxid !in active
    decreases |txs|
  {
    hide Delivered, Answers, Replay, Flat, InitialState;
    if txs != [] {
      var last := |txs| - 1;
      var now := Replay(active, Flat(logs[..last]));
      ReplayKeys(active, Flat(logs[..last]));
      if created != [] && InTurn(cfg, active, offset, txs[..last], height, logs[..last], created[..|created| - 1])
         && Creates(cfg, now, offset + |created| - 1, txs[last])
         && RequestedBy(cfg, txs[last], offset + |created| - 1, height, created[|created| - 1]) {
        CreatedAreNew(cfg, active, offset, txs[..last], height, logs[..last], created[..|created| - 1]);
        assert created == created[..|created| - 1] + [created[|created| - 1]];
      } else {
        CreatedAreNew(cfg, active, offset, txs[..last], height, logs[..last], created);
      }
    }
  }

  lemma {:induction false} FilingKeeps(active: map<Txid, Contract>, created: seq<Contract>, txid: Txid)
    requires txid in active && forall c | c in created :: c.cfg.depositTxid != txid
    ensures txid in FileAll(active, created) && FileAll(active, created)[txid] == active[txid]
    decreases |created|
  {
    if created != [] {
      var last := |created| - 1;
      assert created[last] in created && forall c | c in created[..last] :: c in created;
      FilingKeeps(active, created[..last], txid);
    }
  }

  /** A successful block runs every contract over what its transactions lead to for it and then over the block. */
  lemma ContractHearsBlock(cfg: ManagerCfg, active: map<Txid, Contract>, block: BlockData, txid: Txid)
    returns (logs: seq<seq<Delivery>>)
    requires BlockStep(cfg, active, block).status == Running && txid in active
    ensures var p := BlockStep(cfg, active, block); var c := active[txid];
      && InTurn(cfg, active, NextIndex(active), block.txs, block.height, logs, p.created)
      && txid in p.active
      && p.active[txid] == Contract(c.cfg, Run(c.cfg, c.m, EventsFor(Flat(logs), txid) + [Block(block.height)]))
      && AllTolerated(active, Flat(logs) + BlockLog(Sorted(active.Keys), block.height))
      && ContractDuties(p.duties) == Answers(active, Flat(logs) + BlockLog(Sorted(active.Keys), block.height))
  {
    hide BlockStep, InTurn, AllTolerated, Answers, Replay, Flat, EventsFor, BlockLog, FileAll, Sorted, NextIndex, Run;
    var log;
    logs, log := BlockLedger(cfg, active, block);
    var p := BlockStep(cfg, active, block);
    ReplayIsRun(active, log, txid);
    SortedIsNoDup(active.Keys);
    KeyIsSorted(active.Keys, txid);
    EventsAppend(Flat(logs), BlockLog(Sorted(active.Keys), block.height), txid);
    BlockEvents(Sorted(active.Keys), block.height, txid);
    CreatedAreNew(cfg, active, NextIndex(active), block.txs, block.height, logs, p.created);
    FilingKeeps(Replay(active, log), p.created, txid);
  }

  lemma KeyIsSorted(s: set<nat>, x: nat)
    requires x in s
    ensures x in Sorted(s)
  {
  }

  lemma {:induction false} AnswersContain(active: map<Txid, Contract>, log: seq<Delivery>, n: nat, d: Duty)
    requires 0 < n <= |log| && d in DutiesOf(LastOutcome(active, log[..n]))
    ensures d in Answers(active, log)
    decreases |log|
  {
    hide LastOutcome;
    if n == |log| {
      assert log[..n] == log;
    } else {
      assert log[..|log| - 1][..n] == log[..n];
      AnswersContain(active, log[..|log| - 1], n, d);
    }
  }
}
