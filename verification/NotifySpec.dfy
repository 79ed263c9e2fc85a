/** Fusing the rawblock, rawtx and sequence streams of a bitcoin node into transaction status events. */
module NotifySpec {
  import opened Collections

  type Txid = nat
  type Hash = nat

  datatype Tx = Tx(txid: Txid, raw: nat)
  datatype Block = Block(hash: Hash, prev: Hash, height: nat, txs: seq<Tx>)

  datatype Place = Place(height: nat, hash: Hash)
  datatype Lifecycle = Lifecycle(raw: Tx, block: Option<Place>)

  datatype TxStatus = Unknown | Mempool | Mined(place: Place) | Buried(at: Place)
  datatype TxEvent = TxEvent(tx: Tx, status: TxStatus)
  datatype BlockEvent = BlockBuried(block: Block) | BlockUncled(block: Block)

  /** Filters are compared by identity; `accepts` says what each selects. */
  datatype FilterQuery = FilterQuery(filter: nat, tx: Tx)
  datatype NotifyCfg = NotifyCfg(buryDepth: nat, accepts: FilterQuery -> bool)

  /** `lifecycles[t] == None` records a mempool acceptance whose transaction has not been seen;
      `unburied` has the newest block first. */
  datatype State = State(filters: seq<nat>, lifecycles: map<Txid, Option<Lifecycle>>, unburied: seq<Block>)

  datatype Output = Output(txEvents: seq<TxEvent>, blockEvent: Option<BlockEvent>)

  datatype Message =
    | RawBlock(block: Block)
    | RawTx(tx: Tx)
    | BlockConnect(hash: Hash)
    | BlockDisconnect(hash: Hash)
    | MempoolAcceptance(txid: Txid)
    | MempoolRemoval(txid: Txid)
    | AddFilter(filter: nat)
    | RmFilter(filter: nat)

  const SILENCE := Output([], None)

  predicate Matches(cfg: NotifyCfg, filters: seq<nat>, tx: Tx) {
    exists f :: f in filters && cfg.accepts(FilterQuery(f, tx))
  }

  function Txids(txs: seq<Tx>): set<Txid> {
    set tx | tx in txs :: tx.txid
  }

  function PlaceOf(block: Block): Place {
    Place(block.height, block.hash)
  }

  predicate Seen(lifecycles: map<Txid, Option<Lifecycle>>, txid: Txid) {
    txid in lifecycles && lifecycles[txid].Some?
  }

  // ---------- rawblock ----------

  /** A matching transaction of the tip becomes mined there; transaction data seen before are kept. */
  function MineOne(lifecycles: map<Txid, Option<Lifecycle>>, block: Block, tx: Tx): map<Txid, Option<Lifecycle>> {
    var raw := if Seen(lifecycles, tx.txid) then lifecycles[tx.txid].value.raw else tx;
    lifecycles[tx.txid := Some(Lifecycle(raw, Some(PlaceOf(block))))]
  }

  function MineAll(cfg: NotifyCfg, filters: seq<nat>, lifecycles: map<Txid, Option<Lifecycle>>, block: Block,
      txs: seq<Tx>)
    : map<Txid, Option<Lifecycle>>
  {
    if txs == [] then lifecycles
    else
      var before := MineAll(cfg, filters, lifecycles, block, txs[..|txs| - 1]);
      var tx := txs[|txs| - 1];
      if Matches(cfg, filters, tx) then MineOne(before, block, tx) else before
  }

  /** One event per matching transaction, in block order. */
  function EventsFor(cfg: NotifyCfg, filters: seq<nat>, txs: seq<Tx>, status: TxStatus): seq<TxEvent> {
    if txs == [] then []
    else
      var before := EventsFor(cfg, filters, txs[..|txs| - 1], status);
      var tx := txs[|txs| - 1];
      if Matches(cfg, filters, tx) then before + [TxEvent(tx, status)] else before
  }

  predicate ExtendsTip(s: State, block: Block) {
    s.unburied == [] || block.prev == s.unburied[0].hash
  }

  /** A block that does not extend the tip is dropped, and the old tip is processed once more. */
  function Push(s: State, block: Block): (q: seq<Block>)
    ensures |q| > 0
  {
    if ExtendsTip(s, block) then [block] + s.unburied else s.unburied
  }

  function ProcessBlock(cfg: NotifyCfg, s: State, block: Block): (State, Output) {
    var queue := Push(s, block);
    var tip := queue[0];
    var mined := MineAll(cfg, s.filters, s.lifecycles, tip, tip.txs);
    var minedEvents := EventsFor(cfg, s.filters, tip.txs, Mined(PlaceOf(tip)));
    if |queue| <= cfg.buryDepth then
      (State(s.filters, mined, queue), Output(minedEvents, None))
    else
      var oldest := queue[|queue| - 1];
      (State(s.filters, mined - Txids(oldest.txs), queue[..|queue| - 1]),
       Output(minedEvents + EventsFor(cfg, s.filters, oldest.txs, Buried(PlaceOf(oldest))), Some(BlockBuried(oldest))))
  }

  // ---------- rawtx ----------

  function ProcessTx(cfg: NotifyCfg, s: State, tx: Tx): (State, seq<TxEvent>) {
    if !Matches(cfg, s.filters, tx) || Seen(s.lifecycles, tx.txid) then (s, [])
    else
      (s.(lifecycles := s.lifecycles[tx.txid := Some(Lifecycle(tx, None))]),
       if tx.txid in s.lifecycles then [TxEvent(tx, Mempool)] else [])
  }

  // ---------- sequence ----------

  predicate MinedIn(entry: Option<Lifecycle>, hash: Hash) {
    entry.Some? && entry.value.block.Some? && entry.value.block.value.hash == hash
  }

  function TrackedIn(lifecycles: map<Txid, Option<Lifecycle>>, hash: Hash): set<Txid> {
    set t | t in lifecycles && MinedIn(lifecycles[t], hash)
  }

  /** The data recorded for a transaction; only asked for transactions that have been seen. */
  function RawOf(lifecycles: map<Txid, Option<Lifecycle>>, txid: Txid): Tx {
    if Seen(lifecycles, txid) then lifecycles[txid].value.raw else Tx(txid, 0)
  }

  /** The dropped transactions, in txid order. */
  function UnknownEvents(lifecycles: map<Txid, Option<Lifecycle>>, txids: seq<Txid>): seq<TxEvent>
  {
    seq(|txids|, i requires 0 <= i < |txids| => TxEvent(RawOf(lifecycles, txids[i]), Unknown))
  }

  function Disconnect(s: State, hash: Hash): (State, Option<Output>) {
    if s.unburied != [] && s.unburied[0].hash != hash then (s, None)
    else
      var dropped := TrackedIn(s.lifecycles, hash);
      var events := UnknownEvents(s.lifecycles, Sorted(dropped));
      var s' := s.(lifecycles := s.lifecycles - dropped);
      if s.unburied == [] then (s', Some(Output(events, None)))
      else (s'.(unburied := s.unburied[1..]), Some(Output(events, Some(BlockUncled(s.unburied[0])))))
  }

  function Accept(s: State, txid: Txid): (State, Option<Output>) {
    if txid !in s.lifecycles then (s.(lifecycles := s.lifecycles[txid := None]), Some(SILENCE))
    else
      match s.lifecycles[txid]
      case None => (s, None)
      case Some(l) => (s, Some(if l.block.None? then Output([TxEvent(l.raw, Mempool)], None) else SILENCE))
  }

  function Remove(s: State, txid: Txid): (State, Output) {
    (s.(lifecycles := s.lifecycles - {txid}),
     if Seen(s.lifecycles, txid) then Output([TxEvent(RawOf(s.lifecycles, txid), Unknown)], None) else SILENCE)
  }

  // ---------- filters ----------

  /** The first position of a filter, or the length if there is none. */
  function Position(filters: seq<nat>, f: nat): (i: nat)
    ensures i <= |filters| && (i < |filters| ==> filters[i] == f) && f !in filters[..i]
  {
    if filters == [] || filters[0] == f then 0
    else
      var i := 1 + Position(filters[1..], f);
      assert filters[..i] == [filters[0]] + filters[1..][..i - 1];
      i
  }

  /** Removes an element by moving the last one into its place. */
  function SwapRemove(filters: seq<nat>, i: nat): seq<nat>
    requires i < |filters|
  {
    var last := |filters| - 1;
    if i == last then filters[..last] else filters[..last][i := filters[last]]
  }

  function WithoutFilter(filters: seq<nat>, f: nat): seq<nat> {
    var i := Position(filters, f);
    if i < |filters| then SwapRemove(filters, i) else filters
  }

  /** The whole machine; `None` is a panic. */
  function Step(cfg: NotifyCfg, s: State, msg: Message): (State, Option<Output>) {
    match msg
    case RawBlock(block) => var (s', out) := ProcessBlock(cfg, s, block); (s', Some(out))
    case RawTx(tx) => var (s', events) := ProcessTx(cfg, s, tx); (s', Some(Output(events, None)))
    case BlockConnect(_) => (s, Some(SILENCE))
    case BlockDisconnect(hash) => Disconnect(s, hash)
    case MempoolAcceptance(txid) => Accept(s, txid)
    case MempoolRemoval(txid) => var (s', out) := Remove(s, txid); (s', Some(out))
    case AddFilter(f) => (s.(filters := s.filters + [f]), Some(SILENCE))
    case RmFilter(f) => (s.(filters := WithoutFilter(s.filters, f)), Some(SILENCE))
  }
}
