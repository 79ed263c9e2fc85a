/** What subscribers are told: every transaction event of every message, and burials over whole runs. */
module NotifyReports {
  import opened Collections
  import opened NotifySpec
  import opened NotifyChain

  // ---------- blocks ----------

  /** Some registered filter selects the transaction. */
  ghost predicate Wanted(cfg: NotifyCfg, filters: seq<nat>, tx: Tx) {
    exists i :: 0 <= i < |filters| && cfg.accepts(FilterQuery(filters[i], tx))
  }

  lemma WantedIffMatches(cfg: NotifyCfg, filters: seq<nat>, tx: Tx)
    ensures Wanted(cfg, filters, tx) <==> Matches(cfg, filters, tx)
  {
    if Matches(cfg, filters, tx) {
      var f :| f in filters && cfg.accepts(FilterQuery(f, tx));
      var i :| 0 <= i < |filters| && filters[i] == f;
    }
  }

  /** How often a block makes an event: once for each occurrence of a wanted transaction, with the given status. */
  ghost function Share(cfg: NotifyCfg, filters: seq<nat>, block: Block, status: TxStatus, e: TxEvent): nat {
    if e.status == status && Wanted(cfg, filters, e.tx) then multiset(block.txs)[e.tx] else 0
  }

  lemma {:induction false} EventsCounted(cfg: NotifyCfg, filters: seq<nat>, txs: seq<Tx>, status: TxStatus, e: TxEvent)
    ensures multiset(EventsFor(cfg, filters, txs, status))[e]
         == if e.status == status && Wanted(cfg, filters, e.tx) then multiset(txs)[e.tx] else 0
    decreases |txs|
  {
    hide Wanted, Matches;
    if txs != [] {
      var front, last := txs[..|txs| - 1], txs[|txs| - 1];
      assert txs == front + [last];
      EventsCounted(cfg, filters, front, status, e);
      WantedIffMatches(cfg, filters, last);
    }
  }

  /** The block a rawblock message makes the tip, or finds there. */
  function TipAfter(s: State, block: Block): Block {
    if s.unburied != [] && s.unburied[0].hash != block.prev then s.unburied[0] else block
  }

  /** In any state: a rawblock message reports each wanted transaction of the tip as mined there, once for each
      occurrence, then each wanted transaction of the block it buries, if it buries one, as buried there; and nothing
      else. */
  lemma BlockReports(cfg: NotifyCfg, s: State, block: Block, e: TxEvent)
    ensures var out := ProcessBlock(cfg, s, block).1; var tip := TipAfter(s, block);
      && (out.blockEvent.Some? ==> out.blockEvent.value.BlockBuried?)
      && multiset(out.txEvents)[e]
         == Share(cfg, s.filters, tip, Mined(PlaceOf(tip)), e)
            + (if out.blockEvent.None? then 0
               else var b := out.blockEvent.value.block; Share(cfg, s.filters, b, Buried(PlaceOf(b)), e))
  {
    hide EventsFor, MineAll, Wanted;
    var tip := TipAfter(s, block);
    EventsCounted(cfg, s.filters, tip.txs, Mined(PlaceOf(tip)), e);
    var queue := Push(s, block);
    assert queue[0] == tip;
    var oldest := queue[|queue| - 1];
    EventsCounted(cfg, s.filters, oldest.txs, Buried(PlaceOf(oldest)), e);
  }

  /** Mined transactions are reported before buried ones. */
  lemma MinedBeforeBuried(cfg: NotifyCfg, s: State, block: Block, i: nat, j: nat)
    requires var events := ProcessBlock(cfg, s, block).1.txEvents; i < j < |events| && events[j].status.Mined?
    ensures ProcessBlock(cfg, s, block).1.txEvents[i].status.Mined?
  {
    hide EventsFor, MineAll;
    var queue := Push(s, block);
    var tip, oldest := queue[0], queue[|queue| - 1];
    OneStatus(cfg, s.filters, tip.txs, Mined(PlaceOf(tip)));
    OneStatus(cfg, s.filters, oldest.txs, Buried(PlaceOf(oldest)));
  }

  lemma {:induction false} OneStatus(cfg: NotifyCfg, filters: seq<nat>, txs: seq<Tx>, status: TxStatus)
    ensures forall e | e in EventsFor(cfg, filters, txs, status) :: e.status == status
    decreases |txs|
  {
    hide Matches;
    if txs != [] { OneStatus(cfg, filters, txs[..|txs| - 1], status); }
  }

  // ---------- every message ----------

  /** An acceptance of the transaction has been announced and its data are missing. */
  predicate AcceptanceWaits(s: State, txid: Txid) {
    txid in s.lifecycles && s.lifecycles[txid].None?
  }

  /** The data recorded for a transaction that is not in a block, or in the block with the given hash. */
  predicate RecordedLoose(s: State, txid: Txid, tx: Tx) {
    Seen(s.lifecycles, txid) && s.lifecycles[txid].value.block.None? && tx == s.lifecycles[txid].value.raw
  }

  predicate RecordedIn(s: State, txid: Txid, hash: Hash, tx: Tx) {
    txid in s.lifecycles && MinedIn(s.lifecycles[txid], hash) && tx == s.lifecycles[txid].value.raw
  }

  /** In any state: a transaction is reported in the mempool if and only if its rawtx arrives where a filter wants it
      and an acceptance waits for it, or its acceptance arrives when its data are recorded outside any block; and then
      once. */
  lemma MempoolReports(cfg: NotifyCfg, s: State, msg: Message, tx: Tx)
    requires Step(cfg, s, msg).1.Some?
    ensures multiset(Step(cfg, s, msg).1.value.txEvents)[TxEvent(tx, Mempool)] ==
      if || (msg == RawTx(tx) && Wanted(cfg, s.filters, tx) && AcceptanceWaits(s, tx.txid))
         || (msg.MempoolAcceptance? && RecordedLoose(s, msg.txid, tx))
      then 1 else 0
  {
    hide ProcessBlock, Matches, Wanted, UnknownEvents, Sorted, WithoutFilter, TrackedIn;
    match msg
    case RawBlock(block) =>
      BlockReports(cfg, s, block, TxEvent(tx, Mempool));
    case RawTx(t) =>
      WantedIffMatches(cfg, s.filters, t);
    case BlockDisconnect(hash) =>
      AllUnknown(s.lifecycles, Sorted(TrackedIn(s.lifecycles, hash)));
    case _ =>
  }

  lemma AllUnknown(lifecycles: map<Txid, Option<Lifecycle>>, txids: seq<Txid>)
    ensures forall e | e in UnknownEvents(lifecycles, txids) :: e.status == Unknown
  {
  }

  /** In any state: a transaction is reported unknown if and only if its removal arrives when its data are recorded, or
      the block it was mined in is disconnected. */
  lemma UnknownReports(cfg: NotifyCfg, s: State, msg: Message, tx: Tx)
    requires Step(cfg, s, msg).1.Some?
    ensures TxEvent(tx, Unknown) in Step(cfg, s, msg).1.value.txEvents <==>
      || (msg.MempoolRemoval? && Seen(s.lifecycles, msg.txid) && tx == s.lifecycles[msg.txid].value.raw)
      || (msg.BlockDisconnect? && exists txid :: RecordedIn(s, txid, msg.hash, tx))
  {
    hide ProcessBlock, Matches, UnknownEvents, WithoutFilter;
    match msg
    case RawBlock(block) =>
      BlockReports(cfg, s, block, TxEvent(tx, Unknown));
    case BlockDisconnect(hash) =>
      DisconnectedReports(s, hash, tx);
    case _ =>
  }

  lemma DisconnectedReports(s: State, hash: Hash, tx: Tx)
    ensures TxEvent(tx, Unknown) in UnknownEvents(s.lifecycles, Sorted(TrackedIn(s.lifecycles, hash)))
       <==> exists txid :: RecordedIn(s, txid, hash, tx)
  {
    var txids := Sorted(TrackedIn(s.lifecycles, hash));
    var events := UnknownEvents(s.lifecycles, txids);
    if TxEvent(tx, Unknown) in events {
      var i :| 0 <= i < |events| && events[i] == TxEvent(tx, Unknown);
      assert txids[i] in txids;
      assert RecordedIn(s, txids[i], hash, tx);
    }
    if txid :| RecordedIn(s, txid, hash, tx) {
      assert txid in txids;
      var i :| 0 <= i < |txids| && txids[i] == txid;
      assert events[i] == TxEvent(tx, Unknown);
    }
  }

  /** Mined and buried are reported by rawblock messages only. */
  lemma OnlyBlocksReportPlaces(cfg: NotifyCfg, s: State, msg: Message, e: TxEvent)
    requires !msg.RawBlock? && Step(cfg, s, msg).1.Some? && (e.status.Mined? || e.status.Buried?)
    ensures e !in Step(cfg, s, msg).1.value.txEvents
  {
    hide Matches, UnknownEvents, Sorted, WithoutFilter, TrackedIn;
    if msg.BlockDisconnect? { AllUnknown(s.lifecycles, Sorted(TrackedIn(s.lifecycles, msg.hash))); }
  }

  /** In any state the machine panics if and only if an acceptance repeats while its transaction is still missing, or a
      block other than the tip is disconnected. */
  lemma PanicsIff(cfg: NotifyCfg, s: State, msg: Message)
    ensures Step(cfg, s, msg).1.None? <==>
      || (msg.MempoolAcceptance? && AcceptanceWaits(s, msg.txid))
      || (msg.BlockDisconnect? && s.unburied != [] && s.unburied[0].hash != msg.hash)
  {
    hide MineAll, EventsFor, UnknownEvents, Sorted, Matches, WithoutFilter, TrackedIn;
  }

  // ---------- whole runs ----------

  function EventsOf(out: Option<Output>): seq<TxEvent> {
    if out.Some? then out.value.txEvents else []
  }

  /** Everything reported while `msgs` follow the messages `before`. */
  function Reported(cfg: NotifyCfg, init: seq<Block>, before: seq<Message>, msgs: seq<Message>): seq<TxEvent> {
    if msgs == [] then []
    else
      var front, msg := msgs[..|msgs| - 1], msgs[|msgs| - 1];
      Reported(cfg, init, before, front) + EventsOf(Step(cfg, RunAll(cfg, init, before + front).s, msg).1)
  }

  /** How often a list of blocks makes an event with the given status. */
  ghost function Shares(cfg: NotifyCfg, filters: seq<nat>, blocks: seq<Block>, buried: bool, e: TxEvent): nat {
    if blocks == [] then 0
    else
      var b := blocks[|blocks| - 1];
      Shares(cfg, filters, blocks[..|blocks| - 1], buried, e)
      + Share(cfg, filters, b, if buried then Buried(PlaceOf(b)) else Mined(PlaceOf(b)), e)
  }

  function Connected(msgs: seq<Message>): seq<Block> {
    if msgs == [] then []
    else
      var msg := msgs[|msgs| - 1];
      Connected(msgs[..|msgs| - 1]) + if msg.RawBlock? then [msg.block] else []
  }

  predicate NoFilterMessages(msgs: seq<Message>) {
    forall msg | msg in msgs :: !msg.AddFilter? && !msg.RmFilter?
  }

  lemma FiltersStay(cfg: NotifyCfg, s: State, msg: Message)
    requires !msg.AddFilter? && !msg.RmFilter?
    ensures Step(cfg, s, msg).0.filters == s.filters
  {
    hide MineAll, EventsFor, UnknownEvents, Sorted, Matches;
  }

  lemma RunOneMore(cfg: NotifyCfg, init: seq<Block>, msgs: seq<Message>, msg: Message)
    ensures RunAll(cfg, init, msgs + [msg]) == Advance(cfg, RunAll(cfg, init, msgs), msg)
  {
    hide Advance;
    assert (msgs + [msg])[..|msgs|] == msgs;
  }

  /** One message of an expected run, seen through one event that names a place. */
  lemma PlacesStep(cfg: NotifyCfg, r: Run, msg: Message, e: TxEvent)
    requires Spells(cfg, r) && Expected(r.s, r.chain, r.buried, msg) && (e.status.Mined? || e.status.Buried?)
    ensures var out := Step(cfg, r.s, msg).1; var newly := NewlyBuried(out);
      && |newly| <= 1
      && multiset(EventsOf(out))[e]
         == (if msg.RawBlock? then Share(cfg, r.s.filters, msg.block, Mined(PlaceOf(msg.block)), e) else 0)
            + (if newly == [] then 0 else Share(cfg, r.s.filters, newly[0], Buried(PlaceOf(newly[0])), e))
  {
    hide Share, Backwards, ProcessBlock, Disconnect, ProcessTx, Accept, Remove, WithoutFilter;
    AnySpells(cfg, r, msg);
    if msg.RawBlock? {
      TipIsChainEnd(cfg, r);
      BlockReports(cfg, r.s, msg.block, e);
    } else {
      OnlyBlocksReportPlaces(cfg, r.s, msg, e);
      OnlyBlocksBury(cfg, r.s, msg);
    }
  }

  lemma OnlyBlocksBury(cfg: NotifyCfg, s: State, msg: Message)
    requires !msg.RawBlock?
    ensures NewlyBuried(Step(cfg, s, msg).1) == []
  {
    hide UnknownEvents, Sorted, Matches, WithoutFilter, TrackedIn;
  }

  lemma SharesAppend(cfg: NotifyCfg, filters: seq<nat>, blocks: seq<Block>, more: seq<Block>, buried: bool, e: TxEvent)
    requires |more| <= 1
    ensures Shares(cfg, filters, blocks + more, buried, e) == Shares(cfg, filters, blocks, buried, e) +
      if more == [] then 0
      else Share(cfg, filters, more[0], if buried then Buried(PlaceOf(more[0])) else Mined(PlaceOf(more[0])), e)
  {
    hide Share;
    if more == [] {
      assert blocks + more == blocks;
    } else {
      assert (blocks + more)[..|blocks|] == blocks;
    }
  }

  /** Over every expected run with fixed filters: each wanted transaction is reported as mined once for each occurrence
      in a connected block, and as buried once for each occurrence in a block buried meanwhile, with that block's
      place; nothing else is reported with a place. */
  lemma {:induction false} PlacesReported(cfg: NotifyCfg, init: seq<Block>, before: seq<Message>, msgs: seq<Message>,
      e: TxEvent)
    requires |init| <= cfg.buryDepth && ExpectedRun(cfg, init, before + msgs) && NoFilterMessages(msgs)
    requires e.status.Mined? || e.status.Buried?
    ensures var r, r' := RunAll(cfg, init, before), RunAll(cfg, init, before + msgs);
      && r'.s.filters == r.s.filters && r.buried <= r'.buried
      && multiset(Reported(cfg, init, before, msgs))[e]
         == Shares(cfg, r.s.filters, Connected(msgs), false, e)
            + Shares(cfg, r.s.filters, r'.buried[|r.buried|..], true, e)
    decreases |msgs|
  {
    hide Step, Expected, Share, Spells, Shares, NewlyBuried, RunAll, Reported, Connected, ExpectedRun, NoFilterMessages;
    var r := RunAll(cfg, init, before);
    if msgs == [] {
      assert before + msgs == before;
      NothingShared(cfg, r.s.filters, e);
      NothingReported(cfg, init, before);
      assert r.buried[|r.buried|..] == [];
    } else {
      var front, msg := msgs[..|msgs| - 1], msgs[|msgs| - 1];
      assert msgs == front + [msg];
      FrontIsExpected(cfg, init, before, front, msg);
      PlacesReported(cfg, init, before, front, e);
      RunsSpellChain(cfg, init, before + front);
      PlacesOneMore(cfg, init, before, front, msg, e);
    }
  }

  lemma FrontIsExpected(cfg: NotifyCfg, init: seq<Block>, before: seq<Message>, front: seq<Message>, msg: Message)
    requires ExpectedRun(cfg, init, before + (front + [msg])) && NoFilterMessages(front + [msg])
    ensures ExpectedRun(cfg, init, before + front) && NoFilterMessages(front) && !msg.AddFilter? && !msg.RmFilter?
    ensures var mid := RunAll(cfg, init, before + front); Expected(mid.s, mid.chain, mid.buried, msg)
  {
    hide Expected, RunAll;
    var all, msgs := before + (front + [msg]), front + [msg];
    assert all[..|all| - 1] == before + front && all[|all| - 1] == msg;
    assert msgs[|front|] == msg && forall m | m in front :: m in msgs;
  }

  /** The books stay balanced over one more message. */
  lemma PlacesOneMore(cfg: NotifyCfg, init: seq<Block>, before: seq<Message>, front: seq<Message>, msg: Message,
      e: TxEvent)
    requires !msg.AddFilter? && !msg.RmFilter? && (e.status.Mined? || e.status.Buried?)
    requires var r, mid := RunAll(cfg, init, before), RunAll(cfg, init, before + front);
      && Spells(cfg, mid) && Expected(mid.s, mid.chain, mid.buried, msg)
      && mid.s.filters == r.s.filters && r.buried <= mid.buried
      && multiset(Reported(cfg, init, before, front))[e]
         == Shares(cfg, r.s.filters, Connected(front), false, e)
            + Shares(cfg, r.s.filters, mid.buried[|r.buried|..], true, e)
    ensures var r, r' := RunAll(cfg, init, before), RunAll(cfg, init, before + (front + [msg]));
      && r'.s.filters == r.s.filters && r.buried <= r'.buried
      && multiset(Reported(cfg, init, before, front + [msg]))[e]
         == Shares(cfg, r.s.filters, Connected(front + [msg]), false, e)
            + Shares(cfg, r.s.filters, r'.buried[|r.buried|..], true, e)
  {
    hide Step, Expected, Share, Spells, Shares, NewlyBuried, RunAll, Reported, Connected;
    var r, mid := RunAll(cfg, init, before), RunAll(cfg, init, before + front);
    assert before + (front + [msg]) == (before + front) + [msg];
    PlacesStep(cfg, mid, msg, e);
    RunOneMore(cfg, init, before + front, msg);
    FiltersStay(cfg, mid.s, msg);
    ReportedOneMore(cfg, init, before, front, msg);
    var newly := NewlyBuried(Step(cfg, mid.s, msg).1);
    var so, more := mid.buried[|r.buried|..], if msg.RawBlock? then [msg.block] else [];
    assert (mid.buried + newly)[|r.buried|..] == so + newly;
    SharesAppend(cfg, r.s.filters, so, newly, true, e);
    SharesAppend(cfg, r.s.filters, Connected(front), more, false, e);
  }

  lemma ReportedOneMore(cfg: NotifyCfg, init: seq<Block>, before: seq<Message>, front: seq<Message>, msg: Message)
    ensures Reported(cfg, init, before, front + [msg])
         == Reported(cfg, init, before, front) + EventsOf(Step(cfg, RunAll(cfg, init, before + front).s, msg).1)
    ensures Connected(front + [msg]) == Connected(front) + if msg.RawBlock? then [msg.block] else []
  {
    hide Step, RunAll, EventsOf;
    assert (front + [msg])[..|front|] == front;
  }

  lemma NothingReported(cfg: NotifyCfg, init: seq<Block>, before: seq<Message>)
    ensures Reported(cfg, init, before, []) == [] && Connected([]) == []
  {
  }

  lemma NothingShared(cfg: NotifyCfg, filters: seq<nat>, e: TxEvent)
    ensures Shares(cfg, filters, [], false, e) == Shares(cfg, filters, [], true, e) == 0
  {
  }

  lemma {:induction false} OwnShareOnly(cfg: NotifyCfg, filters: seq<nat>, blocks: seq<Block>, k: nat, tx: Tx)
    requires k < |blocks| && forall i | 0 <= i < |blocks| && i != k :: PlaceOf(blocks[i]) != PlaceOf(blocks[k])
    ensures Shares(cfg, filters, blocks, true, TxEvent(tx, Buried(PlaceOf(blocks[k]))))
         == if Wanted(cfg, filters, tx) then multiset(blocks[k].txs)[tx] else 0
    decreases |blocks|
  {
    hide Wanted;
    var e := TxEvent(tx, Buried(PlaceOf(blocks[k])));
    var last := |blocks| - 1;
    if k == last {
      ForeignShares(cfg, filters, blocks[..last], e);
    } else {
      OwnShareOnly(cfg, filters, blocks[..last], k, tx);
    }
  }

  lemma {:induction false} ForeignShares(cfg: NotifyCfg, filters: seq<nat>, blocks: seq<Block>, e: TxEvent)
    requires e.status.Buried? && forall i | 0 <= i < |blocks| :: PlaceOf(blocks[i]) != e.status.at
    ensures Shares(cfg, filters, blocks, true, e) == 0
    decreases |blocks|
  {
    hide Wanted;
    if blocks != [] { ForeignShares(cfg, filters, blocks[..|blocks| - 1], e); }
  }

  lemma {:induction false} MinedShareIsMined(cfg: NotifyCfg, filters: seq<nat>, blocks: seq<Block>, e: TxEvent)
    requires e.status.Buried?
    ensures Shares(cfg, filters, blocks, false, e) == 0
    decreases |blocks|
  {
    hide Wanted;
    if blocks != [] { MinedShareIsMined(cfg, filters, blocks[..|blocks| - 1], e); }
  }

  /** Over every expected run with fixed filters: a wanted transaction that stands once in a block buried meanwhile is
      reported buried there exactly once. */
  lemma BuriedExactlyOnce(cfg: NotifyCfg, init: seq<Block>, before: seq<Message>, msgs: seq<Message>, k: nat, tx: Tx)
    requires |init| <= cfg.buryDepth && ExpectedRun(cfg, init, before + msgs) && NoFilterMessages(msgs)
    requires Wanted(cfg, RunAll(cfg, init, before).s.filters, tx)
    requires var newly := RunAll(cfg, init, before + msgs).buried; |RunAll(cfg, init, before).buried| <= k < |newly|
    requires var newly := RunAll(cfg, init, before + msgs).buried;
      && multiset(newly[k].txs)[tx] == 1
      && forall i | 0 <= i < |newly| && i != k :: PlaceOf(newly[i]) != PlaceOf(newly[k])
    ensures var newly := RunAll(cfg, init, before + msgs).buried;
      multiset(Reported(cfg, init, before, msgs))[TxEvent(tx, Buried(PlaceOf(newly[k])))] == 1
  {
    hide RunAll, ExpectedRun, Wanted, Shares, Reported;
    var r, r' := RunAll(cfg, init, before), RunAll(cfg, init, before + msgs);
    var e := TxEvent(tx, Buried(PlaceOf(r'.buried[k])));
    PlacesReported(cfg, init, before, msgs, e);
    var newly := r'.buried[|r.buried|..];
    assert newly[k - |r.buried|] == r'.buried[k];
    OwnShareOnly(cfg, r.s.filters, newly, k - |r.buried|, tx);
    MinedShareIsMined(cfg, r.s.filters, Connected(msgs), e);
  }
}
