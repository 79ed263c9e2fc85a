/** What the machine knows about transactions, and the laws of its messages. */
module NotifyTracking {
  import opened Collections
  import opened NotifySpec
  import opened NotifyChain

  predicate MatchedIn(cfg: NotifyCfg, filters: seq<nat>, txs: seq<Tx>, t: Txid) {
    exists tx :: tx in txs && tx.txid == t && Matches(cfg, filters, tx)
  }

  function MatchedTxids(cfg: NotifyCfg, filters: seq<nat>, txs: seq<Tx>): set<Txid> {
    set tx | tx in txs && Matches(cfg, filters, tx) :: tx.txid
  }

  lemma MatchedTxidsMember(cfg: NotifyCfg, filters: seq<nat>, txs: seq<Tx>, t: Txid)
    ensures t in MatchedTxids(cfg, filters, txs) <==> MatchedIn(cfg, filters, txs, t)
  {
  }

  /** Mining touches exactly the matching txids: they are placed in the block, with the data seen first. */
  lemma {:induction false} MinedEntry(cfg: NotifyCfg, filters: seq<nat>, lifecycles: map<Txid, Option<Lifecycle>>,
      block: Block, txs: seq<Tx>, t: Txid)
    ensures var mined := MineAll(cfg, filters, lifecycles, block, txs);
      && (t in mined <==> t in lifecycles || MatchedIn(cfg, filters, txs, t))
      && (!MatchedIn(cfg, filters, txs, t) && t in lifecycles ==> mined[t] == lifecycles[t])
      && (MatchedIn(cfg, filters, txs, t) ==>
            && Seen(mined, t) && mined[t].value.block == Some(PlaceOf(block))
            && (if Seen(lifecycles, t) then mined[t].value.raw == lifecycles[t].value.raw
                else mined[t].value.raw in txs && mined[t].value.raw.txid == t))
    decreases |txs|
  {
    hide Matches;
    if txs != [] {
      var front, last := txs[..|txs| - 1], txs[|txs| - 1];
      assert txs == front + [last];
      assert forall tx :: tx in txs <==> tx in front || tx == last;
      MinedEntry(cfg, filters, lifecycles, block, front, t);
      if last.txid == t && Matches(cfg, filters, last) {
        assert MatchedIn(cfg, filters, txs, t);
      } else {
        assert MatchedIn(cfg, filters, txs, t) <==> MatchedIn(cfg, filters, front, t);
      }
    }
  }

  // ---------- tracked transactions point to unburied blocks ----------

  ghost predicate AnchoredIn(unburied: seq<Block>, t: Txid, place: Place) {
    exists b :: b in unburied && PlaceOf(b) == place && t in Txids(b.txs)
  }

  /** A recorded transaction is recorded under its own txid and, if mined, in an unburied block that contains it. */
  ghost predicate EntryAnchored(unburied: seq<Block>, t: Txid, entry: Option<Lifecycle>) {
    entry.Some? ==>
      && entry.value.raw.txid == t
      && (entry.value.block.Some? ==> AnchoredIn(unburied, t, entry.value.block.value))
  }

  ghost predicate Anchored(s: State) {
    forall t | t in s.lifecycles :: EntryAnchored(s.unburied, t, s.lifecycles[t])
  }

  lemma AnchorStays(a: seq<Block>, b: seq<Block>, t: Txid, entry: Option<Lifecycle>)
    requires EntryAnchored(a, t, entry) && forall x | x in a :: x in b
    ensures EntryAnchored(b, t, entry)
  {
  }

  lemma MinedAnchored(cfg: NotifyCfg, s: State, queue: seq<Block>, t: Txid)
    requires Anchored(s) && |queue| > 0 && forall x | x in s.unburied :: x in queue
    requires t in MineAll(cfg, s.filters, s.lifecycles, queue[0], queue[0].txs)
    ensures EntryAnchored(queue, t, MineAll(cfg, s.filters, s.lifecycles, queue[0], queue[0].txs)[t])
  {
    hide MineAll, Matches;
    var tip := queue[0];
    MinedEntry(cfg, s.filters, s.lifecycles, tip, tip.txs, t);
    if MatchedIn(cfg, s.filters, tip.txs, t) {
      assert t in Txids(tip.txs);
      assert tip in queue;
    } else {
      AnchorStays(s.unburied, queue, t, s.lifecycles[t]);
    }
  }

  /** Burying the oldest block forgets everything it contains, so no anchor is lost. */
  lemma BuryKeepsAnchor(queue: seq<Block>, t: Txid, entry: Option<Lifecycle>)
    requires queue != [] && EntryAnchored(queue, t, entry) && t !in Txids(queue[|queue| - 1].txs)
    ensures EntryAnchored(queue[..|queue| - 1], t, entry)
  {
    var last := |queue| - 1;
    assert queue == queue[..last] + [queue[last]];
  }

  lemma BlockKeepsAnchored(cfg: NotifyCfg, s: State, block: Block)
    requires Anchored(s)
    ensures Anchored(ProcessBlock(cfg, s, block).0)
  {
    hide MineAll, EventsFor, EntryAnchored;
    var queue := Push(s, block);
    var s' := ProcessBlock(cfg, s, block).0;
    forall t | t in s'.lifecycles ensures EntryAnchored(s'.unburied, t, s'.lifecycles[t]) {
      MinedAnchored(cfg, s, queue, t);
      if |queue| > cfg.buryDepth {
        BuryKeepsAnchor(queue, t, s'.lifecycles[t]);
      }
    }
  }

  lemma DisconnectKeepsAnchored(s: State, hash: Hash)
    requires Anchored(s)
    ensures Anchored(Disconnect(s, hash).0)
  {
    hide UnknownEvents, Sorted;
    var s' := Disconnect(s, hash).0;
    forall t | t in s'.lifecycles ensures EntryAnchored(s'.unburied, t, s'.lifecycles[t]) {
      assert EntryAnchored(s.unburied, t, s.lifecycles[t]);
      if s'.unburied != s.unburied { assert s.unburied == [s.unburied[0]] + s'.unburied; }
    }
  }

  lemma StepKeepsAnchored(cfg: NotifyCfg, s: State, msg: Message)
    requires Anchored(s)
    ensures Anchored(Step(cfg, s, msg).0)
  {
    hide ProcessBlock, Disconnect, Matches, WithoutFilter, AnchoredIn;
    match msg
    case RawBlock(block) => BlockKeepsAnchored(cfg, s, block);
    case BlockDisconnect(hash) => DisconnectKeepsAnchored(s, hash);
    case _ =>
  }

  /** Whatever messages arrive, in whatever order: every tracked mined transaction points to an unburied block
      that contains it. */
  lemma {:induction false} AlwaysAnchored(cfg: NotifyCfg, init: seq<Block>, msgs: seq<Message>)
    ensures Anchored(RunAll(cfg, init, msgs).s)
    decreases |msgs|
  {
    hide Step;
    if msgs != [] {
      AlwaysAnchored(cfg, init, msgs[..|msgs| - 1]);
      StepKeepsAnchored(cfg, RunAll(cfg, init, msgs[..|msgs| - 1]).s, msgs[|msgs| - 1]);
    }
  }

  // ---------- disconnecting ----------

  ghost predicate HashesUnique(blocks: seq<Block>) {
    forall a, b | a in blocks && b in blocks && a.hash == b.hash :: a == b
  }

  /** A txid is in at most one of the blocks. */
  ghost predicate TxidsUnique(blocks: seq<Block>) {
    forall a, b, t | a in blocks && b in blocks && t in Txids(a.txs) && t in Txids(b.txs) :: a == b
  }

  predicate TrackedMined(s: State, t: Txid) {
    Seen(s.lifecycles, t) && s.lifecycles[t].value.block.Some?
  }

  /** What is dropped with the tip is what is tracked as mined and contained in it. */
  lemma DroppedIsTipsTracked(s: State, t: Txid)
    requires Anchored(s) && s.unburied != [] && HashesUnique(s.unburied) && TxidsUnique(s.unburied)
    ensures t in TrackedIn(s.lifecycles, s.unburied[0].hash) <==> TrackedMined(s, t) && t in Txids(s.unburied[0].txs)
  {
    var tip := s.unburied[0];
    assert tip in s.unburied;
    if TrackedMined(s, t) {
      assert EntryAnchored(s.unburied, t, s.lifecycles[t]);
      var place := s.lifecycles[t].value.block.value;
      var b :| b in s.unburied && PlaceOf(b) == place && t in Txids(b.txs);
    }
  }

  /** Disconnecting the tip reports Unknown, once and in txid order, for exactly its tracked transactions, forgets
      them and leaves every other entry alone. */
  lemma DisconnectReportsTip(s: State)
    requires Anchored(s) && s.unburied != [] && HashesUnique(s.unburied) && TxidsUnique(s.unburied)
    ensures var tip := s.unburied[0]; var (s', out) := Disconnect(s, tip.hash);
            var dropped := Sorted(TrackedIn(s.lifecycles, tip.hash));
      && out.Some? && out.value.blockEvent == Some(BlockUncled(tip))
      && (forall t :: t in dropped <==> TrackedMined(s, t) && t in Txids(tip.txs))
      && |out.value.txEvents| == |dropped|
      && (forall i | 0 <= i < |dropped| ::
            Seen(s.lifecycles, dropped[i])
              && out.value.txEvents[i] == TxEvent(s.lifecycles[dropped[i]].value.raw, Unknown))
      && s'.filters == s.filters && s'.unburied == s.unburied[1..]
      && (forall t :: t in s'.lifecycles <==> t in s.lifecycles && t !in dropped)
      && (forall t | t in s'.lifecycles :: s'.lifecycles[t] == s.lifecycles[t])
  {
    var tip := s.unburied[0];
    var tracked := TrackedIn(s.lifecycles, tip.hash);
    var dropped := Sorted(tracked);
    forall t ensures t in dropped <==> TrackedMined(s, t) && t in Txids(tip.txs) {
      DroppedIsTipsTracked(s, t);
      assert t in dropped <==> t in tracked;
    }
    forall i | 0 <= i < |dropped| ensures Seen(s.lifecycles, dropped[i]) { assert dropped[i] in dropped; }
  }

  // ---------- connecting and disconnecting again ----------

  lemma NoneMinedIn(s: State, hash: Hash, t: Txid)
    requires Anchored(s) && (forall b | b in s.unburied :: b.hash != hash) && t in s.lifecycles
    ensures !MinedIn(s.lifecycles[t], hash)
  {
    assert EntryAnchored(s.unburied, t, s.lifecycles[t]);
  }

  /** A connect without burial followed by its disconnect restores the state minus the block's matching txids. */
  lemma DisconnectInvertsConnect(cfg: NotifyCfg, s: State, block: Block)
    requires Anchored(s) && ExtendsTip(s, block) && |s.unburied| < cfg.buryDepth
    requires forall b | b in s.unburied :: b.hash != block.hash
    ensures var s' := ProcessBlock(cfg, s, block).0; var (s'', out) := Disconnect(s', block.hash);
      && out.Some? && out.value.blockEvent == Some(BlockUncled(block))
      && s'' == s.(lifecycles := s.lifecycles - MatchedTxids(cfg, s.filters, block.txs))
  {
    hide MineAll, EventsFor, Matches, UnknownEvents, Sorted, MatchedTxids;
    var s' := ProcessBlock(cfg, s, block).0;
    var s'' := Disconnect(s', block.hash).0;
    var expected := s.lifecycles - MatchedTxids(cfg, s.filters, block.txs);
    forall t ensures t in s''.lifecycles <==> t in expected
             ensures t in expected ==> s''.lifecycles[t] == expected[t] {
      MinedEntry(cfg, s.filters, s.lifecycles, block, block.txs, t);
      MatchedTxidsMember(cfg, s.filters, block.txs, t);
      if t in s.lifecycles { NoneMinedIn(s, block.hash, t); }
    }
    assert s''.lifecycles == expected;
  }

  /** So the state is restored exactly if and only if none of the block's matching transactions was known before. */
  lemma RoundTripExactIff(cfg: NotifyCfg, s: State, block: Block)
    requires Anchored(s) && ExtendsTip(s, block) && |s.unburied| < cfg.buryDepth
    requires forall b | b in s.unburied :: b.hash != block.hash
    ensures Disconnect(ProcessBlock(cfg, s, block).0, block.hash).0 == s
      <==> s.lifecycles.Keys !! MatchedTxids(cfg, s.filters, block.txs)
  {
    hide ProcessBlock, Disconnect, MatchedTxids;
    DisconnectInvertsConnect(cfg, s, block);
    var matched := MatchedTxids(cfg, s.filters, block.txs);
    var rest := s.lifecycles - matched;
    assert rest.Keys == s.lifecycles.Keys - matched;
    if s.lifecycles.Keys !! matched { assert rest == s.lifecycles; }
  }

  // ---------- rawtx and rawblock commute ----------

  /** A txid determines its transaction, among the given ones and what is recorded. */
  ghost predicate Consistent(lifecycles: map<Txid, Option<Lifecycle>>, txs: seq<Tx>) {
    && (forall a, b | a in txs && b in txs && a.txid == b.txid :: a == b)
    && (forall tx | tx in txs && Seen(lifecycles, tx.txid) :: lifecycles[tx.txid].value.raw == tx)
  }

  function TxsFrom(cfg: NotifyCfg, s: State, txs: seq<Tx>): State {
    if txs == [] then s else ProcessTx(cfg, TxsFrom(cfg, s, txs[..|txs| - 1]), txs[|txs| - 1]).0
  }

  /** The block that processing another block would bury. */
  function ToBury(cfg: NotifyCfg, s: State, block: Block): Option<Block> {
    var queue := Push(s, block);
    if |queue| > cfg.buryDepth then Some(queue[|queue| - 1]) else None
  }

  /** Nothing of the new block is forgotten by the burial it causes. */
  ghost predicate BuriesOthers(cfg: NotifyCfg, s: State, block: Block) {
    var oldest := ToBury(cfg, s, block);
    oldest.Some? ==> Txids(oldest.value.txs) !! MatchedTxids(cfg, s.filters, block.txs)
  }

  lemma TxKeepsConsistent(cfg: NotifyCfg, s: State, txs: seq<Tx>, tx: Tx)
    requires Consistent(s.lifecycles, txs) && tx in txs
    ensures Consistent(ProcessTx(cfg, s, tx).0.lifecycles, txs)
    ensures var s' := ProcessTx(cfg, s, tx).0; s'.filters == s.filters && s'.unburied == s.unburied
  {
    hide Matches;
  }

  /** A rawtx before the block changes nothing in the end: the block records the same. */
  lemma TxThenMine(cfg: NotifyCfg, s: State, block: Block, tx: Tx, t: Txid)
    requires Consistent(s.lifecycles, block.txs) && tx in block.txs
    ensures var a := MineAll(cfg, s.filters, s.lifecycles, block, block.txs);
            var b := MineAll(cfg, s.filters, ProcessTx(cfg, s, tx).0.lifecycles, block, block.txs);
      (t in a <==> t in b) && (t in a ==> a[t] == b[t])
  {
    hide Matches, MineAll;
    var s' := ProcessTx(cfg, s, tx).0;
    MinedEntry(cfg, s.filters, s.lifecycles, block, block.txs, t);
    MinedEntry(cfg, s.filters, s'.lifecycles, block, block.txs, t);
    if Matches(cfg, s.filters, tx) { assert MatchedIn(cfg, s.filters, block.txs, tx.txid); }
  }

  lemma TxThenBlock(cfg: NotifyCfg, s: State, block: Block, tx: Tx)
    requires Consistent(s.lifecycles, block.txs) && tx in block.txs && ExtendsTip(s, block)
    ensures ProcessBlock(cfg, ProcessTx(cfg, s, tx).0, block).0 == ProcessBlock(cfg, s, block).0
  {
    hide Matches, MineAll, EventsFor;
    var s' := ProcessTx(cfg, s, tx).0;
    TxKeepsConsistent(cfg, s, block.txs, tx);
    var a := MineAll(cfg, s.filters, s.lifecycles, block, block.txs);
    var b := MineAll(cfg, s.filters, s'.lifecycles, block, block.txs);
    forall t ensures t in a <==> t in b
             ensures t in a ==> a[t] == b[t] {
      TxThenMine(cfg, s, block, tx, t);
    }
    assert a == b;
  }

  lemma {:induction false} TxsThenBlock(cfg: NotifyCfg, s: State, block: Block, before: seq<Tx>)
    requires Consistent(s.lifecycles, block.txs) && ExtendsTip(s, block) && forall tx | tx in before :: tx in block.txs
    ensures var s' := TxsFrom(cfg, s, before);
      && ProcessBlock(cfg, s', block).0 == ProcessBlock(cfg, s, block).0
      && Consistent(s'.lifecycles, block.txs) && s'.filters == s.filters && s'.unburied == s.unburied
    decreases |before|
  {
    hide ProcessBlock, ProcessTx, Consistent;
    if before != [] {
      var front, last := before[..|before| - 1], before[|before| - 1];
      TxsThenBlock(cfg, s, block, front);
      TxKeepsConsistent(cfg, TxsFrom(cfg, s, front), block.txs, last);
      TxThenBlock(cfg, TxsFrom(cfg, s, front), block, last);
    }
  }

  /** After the block, its transactions are known (unless the burial forgot them), so a rawtx is a repetition. */
  lemma TxAfterBlock(cfg: NotifyCfg, s: State, block: Block, tx: Tx)
    requires tx in block.txs && ExtendsTip(s, block) && BuriesOthers(cfg, s, block)
    ensures ProcessTx(cfg, ProcessBlock(cfg, s, block).0, tx).0 == ProcessBlock(cfg, s, block).0
  {
    hide MineAll, EventsFor, Matches;
    if Matches(cfg, s.filters, tx) {
      MinedEntry(cfg, s.filters, s.lifecycles, block, block.txs, tx.txid);
      assert MatchedIn(cfg, s.filters, block.txs, tx.txid);
      MatchedTxidsMember(cfg, s.filters, block.txs, tx.txid);
      assert Seen(ProcessBlock(cfg, s, block).0.lifecycles, tx.txid);
    }
  }

  lemma {:induction false} TxsAfterBlock(cfg: NotifyCfg, s: State, block: Block, after: seq<Tx>)
    requires ExtendsTip(s, block) && BuriesOthers(cfg, s, block) && forall tx | tx in after :: tx in block.txs
    ensures TxsFrom(cfg, ProcessBlock(cfg, s, block).0, after) == ProcessBlock(cfg, s, block).0
    decreases |after|
  {
    hide ProcessBlock, ProcessTx;
    if after != [] {
      TxsAfterBlock(cfg, s, block, after[..|after| - 1]);
      TxAfterBlock(cfg, s, block, after[|after| - 1]);
    }
  }

  /** However the rawtx messages of a block, with repeats, are split before and after its rawblock, the state ends
      up the same. */
  lemma TxsAndBlockCommute(cfg: NotifyCfg, s: State, block: Block, before: seq<Tx>, after: seq<Tx>)
    requires Consistent(s.lifecycles, block.txs) && ExtendsTip(s, block) && BuriesOthers(cfg, s, block)
    requires forall tx | tx in before + after :: tx in block.txs
    ensures TxsFrom(cfg, ProcessBlock(cfg, TxsFrom(cfg, s, before), block).0, after) == ProcessBlock(cfg, s, block).0
  {
    hide ProcessBlock, Consistent, BuriesOthers;
    forall tx | tx in before ensures tx in block.txs { assert tx in before + after; }
    forall tx | tx in after ensures tx in block.txs { assert tx in before + after; }
    TxsThenBlock(cfg, s, block, before);
    TxsAfterBlock(cfg, s, block, after);
  }

  /** With a bury depth of at least one and no txid in two blocks of the active chain, this covers every block. */
  lemma DeepEnoughCommutes(cfg: NotifyCfg, s: State, block: Block)
    requires cfg.buryDepth >= 1 && ExtendsTip(s, block) && TxidsUnique([block] + s.unburied) && block !in s.unburied
    ensures BuriesOthers(cfg, s, block)
  {
    hide Matches;
    var queue := [block] + s.unburied;
    if |queue| > cfg.buryDepth {
      var oldest := queue[|queue| - 1];
      assert oldest in s.unburied && oldest in queue && block in queue;
      forall t | t in MatchedTxids(cfg, s.filters, block.txs) ensures t !in Txids(oldest.txs) {
        assert t in Txids(block.txs);
      }
    }
  }

  /** Order is irrelevant if and only if the burial caused by the block forgets none of its own transactions. */
  lemma CommutesIff(cfg: NotifyCfg, s: State, block: Block)
    requires Consistent(s.lifecycles, block.txs) && ExtendsTip(s, block)
    ensures BuriesOthers(cfg, s, block) <==>
      forall before, after | OfBlock(block, before) && OfBlock(block, after) ::
        TxsFrom(cfg, ProcessBlock(cfg, TxsFrom(cfg, s, before), block).0, after) == ProcessBlock(cfg, s, block).0
  {
    hide ProcessBlock, Consistent, TxsFrom;
    if BuriesOthers(cfg, s, block) {
      forall before, after | OfBlock(block, before) && OfBlock(block, after)
        ensures TxsFrom(cfg, ProcessBlock(cfg, TxsFrom(cfg, s, before), block).0, after) ==
          ProcessBlock(cfg, s, block).0
      {
        TxsAndBlockCommute(cfg, s, block, before, after);
      }
    } else {
      var tx := ForgottenTx(cfg, s, block);
      assert OfBlock(block, []) && OfBlock(block, [tx]);
      LateTxIsNew(cfg, s, block, tx);
    }
  }

  ghost predicate OfBlock(block: Block, txs: seq<Tx>) {
    forall tx | tx in txs :: tx in block.txs
  }

  lemma ForgottenTx(cfg: NotifyCfg, s: State, block: Block) returns (tx: Tx)
    requires !BuriesOthers(cfg, s, block)
    ensures tx in block.txs && Matches(cfg, s.filters, tx)
    ensures ToBury(cfg, s, block).Some? && tx.txid in Txids(ToBury(cfg, s, block).value.txs)
  {
    hide Matches;
    var oldest := ToBury(cfg, s, block).value;
    var t :| t in Txids(oldest.txs) && t in MatchedTxids(cfg, s.filters, block.txs);
    tx :| tx in block.txs && Matches(cfg, s.filters, tx) && tx.txid == t;
  }

  lemma LateTxIsNew(cfg: NotifyCfg, s: State, block: Block, tx: Tx)
    requires Matches(cfg, s.filters, tx) && ToBury(cfg, s, block).Some?
    requires tx.txid in Txids(ToBury(cfg, s, block).value.txs)
    ensures TxsFrom(cfg, ProcessBlock(cfg, TxsFrom(cfg, s, []), block).0, [tx]) != ProcessBlock(cfg, s, block).0
  {
    hide MineAll, EventsFor, Matches;
    var s' := ProcessBlock(cfg, s, block).0;
    assert tx.txid !in s'.lifecycles;
    assert [tx][..0] == [];
    assert TxsFrom(cfg, s', [tx]) == ProcessTx(cfg, s', tx).0;
    assert tx.txid in ProcessTx(cfg, s', tx).0.lifecycles;
  }

  // ---------- reachable states are consistent ----------

  /** In the transactions that exist, a txid determines its transaction. */
  ghost predicate OneTxPerTxid(world: set<Tx>) {
    forall a, b | a in world && b in world && a.txid == b.txid :: a == b
  }

  ghost predicate BlockWithin(world: set<Tx>, block: Block) {
    forall tx | tx in block.txs :: tx in world
  }

  ghost predicate MessageWithin(world: set<Tx>, msg: Message) {
    && (msg.RawTx? ==> msg.tx in world)
    && (msg.RawBlock? ==> BlockWithin(world, msg.block))
  }

  ghost predicate StateWithin(world: set<Tx>, s: State) {
    && (forall t | Seen(s.lifecycles, t) :: s.lifecycles[t].value.raw in world && s.lifecycles[t].value.raw.txid == t)
    && (forall b | b in s.unburied :: BlockWithin(world, b))
  }

  lemma BlockStaysWithin(cfg: NotifyCfg, world: set<Tx>, s: State, block: Block)
    requires StateWithin(world, s) && BlockWithin(world, block)
    ensures StateWithin(world, ProcessBlock(cfg, s, block).0)
  {
    hide MineAll, EventsFor, Matches;
    var queue := Push(s, block);
    var tip := queue[0];
    var s' := ProcessBlock(cfg, s, block).0;
    assert forall b | b in queue :: BlockWithin(world, b);
    assert tip in queue;
    forall t | Seen(s'.lifecycles, t)
      ensures s'.lifecycles[t].value.raw in world && s'.lifecycles[t].value.raw.txid == t
    {
      MinedEntry(cfg, s.filters, s.lifecycles, tip, tip.txs, t);
    }
  }

  lemma StepStaysWithin(cfg: NotifyCfg, world: set<Tx>, s: State, msg: Message)
    requires StateWithin(world, s) && MessageWithin(world, msg)
    ensures StateWithin(world, Step(cfg, s, msg).0)
  {
    hide ProcessBlock, Matches, WithoutFilter, UnknownEvents, Sorted;
    if msg.RawBlock? { BlockStaysWithin(cfg, world, s, msg.block); }
  }

  lemma {:induction false} RunsStayWithin(cfg: NotifyCfg, world: set<Tx>, init: seq<Block>, msgs: seq<Message>)
    requires (forall b | b in init :: BlockWithin(world, b)) && forall msg | msg in msgs :: MessageWithin(world, msg)
    ensures StateWithin(world, RunAll(cfg, init, msgs).s)
    decreases |msgs|
  {
    hide Step, StateWithin;
    if msgs == [] {
      assert StateWithin(world, State([], map[], init)) by { NothingSeen(world, init); }
    } else {
      var front := msgs[..|msgs| - 1];
      RunsStayWithin(cfg, world, init, front);
      assert msgs[|msgs| - 1] in msgs;
      StepStaysWithin(cfg, world, RunAll(cfg, init, front).s, msgs[|msgs| - 1]);
    }
  }

  lemma NothingSeen(world: set<Tx>, init: seq<Block>)
    requires forall b | b in init :: BlockWithin(world, b)
    ensures StateWithin(world, State([], map[], init))
  {
  }

  /** From any reachable state: the rawtx messages of a block, with repeats, may come before or after its rawblock. */
  lemma ReachableTxsAndBlockCommute(cfg: NotifyCfg, world: set<Tx>, init: seq<Block>, msgs: seq<Message>,
      block: Block, before: seq<Tx>, after: seq<Tx>)
    requires OneTxPerTxid(world) && (forall b | b in init :: BlockWithin(world, b)) && BlockWithin(world, block)
    requires forall msg | msg in msgs :: MessageWithin(world, msg)
    requires var s := RunAll(cfg, init, msgs).s;
      cfg.buryDepth >= 1 && ExtendsTip(s, block) && TxidsUnique([block] + s.unburied) && block !in s.unburied
    requires forall tx | tx in before + after :: tx in block.txs
    ensures var s := RunAll(cfg, init, msgs).s;
      TxsFrom(cfg, ProcessBlock(cfg, TxsFrom(cfg, s, before), block).0, after) == ProcessBlock(cfg, s, block).0
  {
    hide RunAll, ProcessBlock, TxsFrom, BuriesOthers;
    var s := RunAll(cfg, init, msgs).s;
    RunsStayWithin(cfg, world, init, msgs);
    assert Consistent(s.lifecycles, block.txs);
    DeepEnoughCommutes(cfg, s, block);
    TxsAndBlockCommute(cfg, s, block, before, after);
  }

  // ---------- events ----------

  /** The positions of the matching transactions. */
  function Matching(cfg: NotifyCfg, filters: seq<nat>, txs: seq<Tx>): set<nat> {
    set i: nat | i < |txs| && Matches(cfg, filters, txs[i])
  }

  lemma MatchingGrows(cfg: NotifyCfg, filters: seq<nat>, front: seq<Tx>, last: Tx)
    ensures var at, more := Sorted(Matching(cfg, filters, front)), Sorted(Matching(cfg, filters, front + [last]));
      more == if Matches(cfg, filters, last) then at + [|front|] else at
  {
    hide Matches;
    var some, all := Matching(cfg, filters, front), Matching(cfg, filters, front + [last]);
    var at := Sorted(some);
    assert forall i | 0 <= i < |at| :: at[i] in at;
    assert forall i: nat | i < |front| :: (front + [last])[i] == front[i];
    assert all == if Matches(cfg, filters, last) then some + {|front|} else some;
    if Matches(cfg, filters, last) {
      assert forall x :: x in at + [|front|] <==> x in at || x == |front|;
      assert Lists(at + [|front|], all);
    }
    SortedUnique(all);
  }

  /** The events of a block are its matching transactions, each occurrence once, in block order. */
  lemma {:induction false} EventsAreMatches(cfg: NotifyCfg, filters: seq<nat>, txs: seq<Tx>, status: TxStatus)
    ensures var events, at := EventsFor(cfg, filters, txs, status), Sorted(Matching(cfg, filters, txs));
      |events| == |at| && forall k | 0 <= k < |at| :: at[k] < |txs| && events[k] == TxEvent(txs[at[k]], status)
    decreases |txs|
  {
    hide Matches, Matching, Sorted;
    if txs == [] {
      NothingMatches(cfg, filters);
    } else {
      var front, last := txs[..|txs| - 1], txs[|txs| - 1];
      assert txs == front + [last];
      EventsAreMatches(cfg, filters, front, status);
      MatchingGrows(cfg, filters, front, last);
    }
  }

  lemma NothingMatches(cfg: NotifyCfg, filters: seq<nat>)
    ensures Sorted(Matching(cfg, filters, [])) == []
  {
    assert Matching(cfg, filters, []) == {};
  }

  /** Reported exactly when matching. */
  lemma ReportedIffMatching(cfg: NotifyCfg, filters: seq<nat>, txs: seq<Tx>, status: TxStatus, e: TxEvent)
    ensures e in EventsFor(cfg, filters, txs, status) <==>
      e.status == status && e.tx in txs && Matches(cfg, filters, e.tx)
  {
    hide Matches;
    var events, at := EventsFor(cfg, filters, txs, status), Sorted(Matching(cfg, filters, txs));
    EventsAreMatches(cfg, filters, txs, status);
    if e in events {
      var k :| 0 <= k < |events| && events[k] == e;
      assert at[k] in Matching(cfg, filters, txs);
    }
    if e.status == status && e.tx in txs && Matches(cfg, filters, e.tx) {
      var i: nat :| i < |txs| && txs[i] == e.tx;
      assert i in Matching(cfg, filters, txs) && i in at;
      var k :| 0 <= k < |at| && at[k] == i;
      assert events[k] == e;
    }
  }

  // ---------- mempool messages ----------

  /** A removal undoes an acceptance of a new transaction, whether or not its rawtx came in between. */
  lemma RemovalInvertsAcceptance(cfg: NotifyCfg, s: State, tx: Tx, includeRaw: bool)
    requires tx.txid !in s.lifecycles
    ensures var accepted := Accept(s, tx.txid).0;
            var seen := if includeRaw then ProcessTx(cfg, accepted, tx).0 else accepted;
      Remove(seen, tx.txid).0 == s
  {
    hide Matches;
    var accepted := Accept(s, tx.txid).0;
    var seen := if includeRaw then ProcessTx(cfg, accepted, tx).0 else accepted;
    assert seen.lifecycles - {tx.txid} == s.lifecycles;
  }

  function EventsOf(out: Option<Output>): seq<TxEvent> {
    if out.Some? then out.value.txEvents else []
  }

  /** An acceptance and its rawtx commute, state and events, if and only if no acceptance is already waiting for
      this transaction; if one is, the second acceptance panics before the rawtx and repeats the event after it. */
  lemma AcceptanceAndTxCommuteIff(cfg: NotifyCfg, s: State, tx: Tx)
    requires Matches(cfg, s.filters, tx)
    ensures var (s1, e1) := ProcessTx(cfg, s, tx); var (s2, o2) := Accept(s1, tx.txid);
            var (t1, p1) := Accept(s, tx.txid); var (t2, e2) := ProcessTx(cfg, t1, tx);
      && s2 == t2
      && (p1.Some? && o2.Some? && e1 + EventsOf(o2) == EventsOf(p1) + e2 <==>
        !(tx.txid in s.lifecycles && s.lifecycles[tx.txid].None?))
  {
  }

  // ---------- filters ----------

  /** Removing a filter just added restores the filters exactly, even if it had been added before. */
  lemma RemoveInvertsAdd(filters: seq<nat>, f: nat)
    ensures WithoutFilter(filters + [f], f) == filters
  {
    var added := filters + [f];
    var i := Position(added, f);
    assert added[|filters|] == f && added[..|added|] == added;
    assert f in added;
    if i < |filters| {
      assert added[..|filters|][i := f] == filters;
    }
  }
}
