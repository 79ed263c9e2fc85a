/** The stake chain state machine: an incremental txid cache that always equals the recursively defined chain. */
module StakeChain {
  import opened Collections

  type Txid = nat
  type OpKey = nat

  /** The data of one stake transaction. */
  datatype StakeInput = StakeInput(hash: nat, funds: nat, wotsKey: nat, operatorKey: nat)

  datatype ChainInputs = ChainInputs(stakeInputs: map<nat, StakeInput>, preStake: nat)

  /** The first stake transaction spends the pre-stake, every later one its predecessor. */
  datatype StakeTx =
    | Head(input: StakeInput, preStake: nat)
    | Tail(input: StakeInput, prevHash: nat, prevTxid: Txid)

  datatype StakeCfg = StakeCfg(txidOf: StakeTx -> Txid, pov: OpKey)

  datatype StakeErr = SetupDataNotFound | StakeTxNotFound | MissingStakeTxid | IncompleteInput
  datatype Result<T> = Success(value: T) | Failure(error: StakeErr)

  datatype Chains = Chains(stakeChains: map<OpKey, ChainInputs>, stakeTxids: map<OpKey, map<nat, Txid>>)

  // ---------- the reference: the chain defined by the inputs ----------

  ghost predicate HasInputs(inputs: ChainInputs, n: nat) {
    forall i: nat | i < n :: i in inputs.stakeInputs
  }

  ghost function ChainTxid(cfg: StakeCfg, inputs: ChainInputs, i: nat): Txid
    requires HasInputs(inputs, i + 1)
    decreases i
  {
    if i == 0 then cfg.txidOf(Head(inputs.stakeInputs[0], inputs.preStake))
    else cfg.txidOf(Tail(inputs.stakeInputs[i], inputs.stakeInputs[i - 1].hash, ChainTxid(cfg, inputs, i - 1)))
  }

  // ---------- the machine ----------

  function CachedTxids(c: Chains, op: OpKey): map<nat, Txid> {
    if op in c.stakeTxids then c.stakeTxids[op] else map[]
  }

  function HeightOf(c: Chains, op: OpKey): nat {
    |CachedTxids(c, op)|
  }

  /** The stake transaction at an index, from stored inputs and cached txids. */
  function StakeTxAt(c: Chains, op: OpKey, nth: nat): Result<Option<StakeTx>> {
    if op !in c.stakeChains then Success(None)
    else
      var chain := c.stakeChains[op];
      if nth == 0 then
        if chain.stakeInputs == map[] then Failure(StakeTxNotFound)
        else Success(Some(Head(chain.stakeInputs[MinOf(chain.stakeInputs.Keys)], chain.preStake)))
      else if op !in c.stakeTxids then Failure(StakeTxNotFound)
      else if nth - 1 !in c.stakeTxids[op] then Failure(MissingStakeTxid)
      else if nth - 1 !in chain.stakeInputs || nth !in chain.stakeInputs then Failure(IncompleteInput)
      else Success(Some(Tail(chain.stakeInputs[nth], chain.stakeInputs[nth - 1].hash, c.stakeTxids[op][nth - 1])))
  }

  function Exchange(c: Chains, op: OpKey, preStake: nat): Chains {
    if op in c.stakeChains then c
    else c.(stakeChains := c.stakeChains[op := ChainInputs(map[], preStake)])
  }

  function StoreInput(c: Chains, op: OpKey, index: nat, input: StakeInput): Chains
    requires op in c.stakeChains
  {
    var chain := c.stakeChains[op];
    c.(stakeChains := c.stakeChains[op := chain.(stakeInputs := chain.stakeInputs[index := input])])
  }

  function CacheTxid(c: Chains, op: OpKey, index: nat, txid: Txid): Chains {
    var txids: map<nat, Txid> := CachedTxids(c, op)[index := txid];
    c.(stakeTxids := c.stakeTxids[op := txids])
  }

  function Setup(cfg: StakeCfg, c: Chains, op: OpKey, index: nat, input: StakeInput): (Chains, Result<Option<Txid>>) {
    if index in CachedTxids(c, op) then (c, Success(Some(CachedTxids(c, op)[index])))
    else if op !in c.stakeChains then (c, Failure(SetupDataNotFound))
    else
      var c' := StoreInput(c, op, index, input);
      match StakeTxAt(c', op, index)
      case Failure(e) => (c', Failure(e))
      case Success(None) => (c', Success(None))
      case Success(Some(tx)) => (CacheTxid(c', op, index, cfg.txidOf(tx)), Success(Some(cfg.txidOf(tx))))
  }

  // ---------- the invariant ----------

  /** An operator's cache is a gap-free prefix of the chain its inputs define. */
  ghost predicate CacheIsChain(cfg: StakeCfg, c: Chains, op: OpKey) {
    var txids := CachedTxids(c, op);
    && (txids != map[] ==> op in c.stakeChains && HasInputs(c.stakeChains[op], |txids|))
    && (forall i: nat :: i in txids <==> i < |txids|)
    && (forall i: nat | i < |txids| :: txids[i] == ChainTxid(cfg, c.stakeChains[op], i))
  }

  ghost predicate Valid(cfg: StakeCfg, c: Chains) {
    forall op: OpKey :: CacheIsChain(cfg, c, op)
  }

  /** Cached txids, the inputs they were made from and pre-stakes are never touched again. */
  ghost predicate Extends(c: Chains, c': Chains) {
    && (forall op: OpKey, i: nat | i in CachedTxids(c, op) ::
          && i in CachedTxids(c', op) && CachedTxids(c', op)[i] == CachedTxids(c, op)[i]
          && op in c.stakeChains && op in c'.stakeChains
          && i in c.stakeChains[op].stakeInputs && i in c'.stakeChains[op].stakeInputs
          && c'.stakeChains[op].stakeInputs[i] == c.stakeChains[op].stakeInputs[i])
    && (forall op | op in c.stakeChains ::
      op in c'.stakeChains && c'.stakeChains[op].preStake == c.stakeChains[op].preStake)
  }

  /** The chain only depends on the inputs up to its index. */
  lemma {:induction false} ChainDependsOnPrefix(cfg: StakeCfg, a: ChainInputs, b: ChainInputs, i: nat)
    requires HasInputs(a, i + 1) && HasInputs(b, i + 1) && a.preStake == b.preStake
    requires forall j: nat | j <= i :: a.stakeInputs[j] == b.stakeInputs[j]
    ensures ChainTxid(cfg, a, i) == ChainTxid(cfg, b, i)
    decreases i
  {
    if i > 0 { ChainDependsOnPrefix(cfg, a, b, i - 1); }
  }

  lemma ExchangeKeepsValid(cfg: StakeCfg, c: Chains, op: OpKey, preStake: nat)
    requires Valid(cfg, c)
    ensures Valid(cfg, Exchange(c, op, preStake)) && Extends(c, Exchange(c, op, preStake))
  {
    var c' := Exchange(c, op, preStake);
    assert forall o: OpKey :: CachedTxids(c', o) == CachedTxids(c, o);
    forall o: OpKey ensures CacheIsChain(cfg, c', o) { assert CacheIsChain(cfg, c, o); }
    forall o: OpKey, i: nat | i in CachedTxids(c, o)
      ensures o in c.stakeChains && i in c.stakeChains[o].stakeInputs && o in c'.stakeChains
      ensures c'.stakeChains[o] == c.stakeChains[o]
    {
      assert CacheIsChain(cfg, c, o);
    }
  }

  /** An input at an index that is not cached yet disturbs no cached prefix. */
  lemma StoreKeepsValid(cfg: StakeCfg, c: Chains, op: OpKey, index: nat, input: StakeInput)
    requires Valid(cfg, c) && op in c.stakeChains && index !in CachedTxids(c, op)
    ensures Valid(cfg, StoreInput(c, op, index, input)) && Extends(c, StoreInput(c, op, index, input))
  {
    var c' := StoreInput(c, op, index, input);
    forall o: OpKey ensures CacheIsChain(cfg, c', o) {
      assert CacheIsChain(cfg, c, o);
      assert CachedTxids(c', o) == CachedTxids(c, o);
      if o == op {
        forall i: nat | i < |CachedTxids(c, op)|
          ensures ChainTxid(cfg, c'.stakeChains[op], i) == ChainTxid(cfg, c.stakeChains[op], i)
        {
          ChainDependsOnPrefix(cfg, c'.stakeChains[op], c.stakeChains[op], i);
        }
      }
    }
    forall o: OpKey, i: nat | i in CachedTxids(c, o)
      ensures o in c.stakeChains && i in c.stakeChains[o].stakeInputs && o in c'.stakeChains
      ensures i in c'.stakeChains[o].stakeInputs
              && c'.stakeChains[o].stakeInputs[i] == c.stakeChains[o].stakeInputs[i]
    {
      assert CacheIsChain(cfg, c, o);
    }
  }

  /** With its input stored, the transaction at an index can be built exactly when the index continues the cache,
      and then it is the chain's. */
  lemma BuildableIff(cfg: StakeCfg, c: Chains, op: OpKey, index: nat)
    requires Valid(cfg, c) && op in c.stakeChains && index in c.stakeChains[op].stakeInputs
    requires index !in CachedTxids(c, op)
    ensures StakeTxAt(c, op, index) != Success(None)
    ensures StakeTxAt(c, op, index).Success? <==> index == HeightOf(c, op)
    ensures index == HeightOf(c, op) ==>
      HasInputs(c.stakeChains[op], index + 1)
        && cfg.txidOf(StakeTxAt(c, op, index).value.value) == ChainTxid(cfg, c.stakeChains[op], index)
  {
    assert CacheIsChain(cfg, c, op);
    var chain := c.stakeChains[op];
    if index == 0 {
      assert MinOf(chain.stakeInputs.Keys) == 0;
    } else if index == HeightOf(c, op) {
      assert index - 1 in CachedTxids(c, op);
    }
  }

  lemma CacheNextKeepsValid(cfg: StakeCfg, c: Chains, op: OpKey, index: nat)
    requires Valid(cfg, c) && op in c.stakeChains && index == HeightOf(c, op) && HasInputs(c.stakeChains[op], index + 1)
    ensures var c' := CacheTxid(c, op, index, ChainTxid(cfg, c.stakeChains[op], index));
      Valid(cfg, c') && Extends(c, c') && HeightOf(c', op) == HeightOf(c, op) + 1
  {
    var c' := CacheTxid(c, op, index, ChainTxid(cfg, c.stakeChains[op], index));
    assert CacheIsChain(cfg, c, op);
    NewKey(CachedTxids(c, op), index, ChainTxid(cfg, c.stakeChains[op], index));
    forall o: OpKey ensures CacheIsChain(cfg, c', o) {
      assert CacheIsChain(cfg, c, o);
      if o != op { assert CachedTxids(c', o) == CachedTxids(c, o); }
    }
    forall o: OpKey, i: nat | i in CachedTxids(c, o)
      ensures i in CachedTxids(c', o) && CachedTxids(c', o)[i] == CachedTxids(c, o)[i]
      ensures o in c.stakeChains && i in c.stakeChains[o].stakeInputs
    {
      assert CacheIsChain(cfg, c, o);
    }
  }

  lemma ExtendsTransitive(a: Chains, b: Chains, c: Chains)
    requires Extends(a, b) && Extends(b, c)
    ensures Extends(a, c)
  {
    forall op: OpKey, i: nat | i in CachedTxids(a, op)
      ensures i in CachedTxids(c, op) && CachedTxids(c, op)[i] == CachedTxids(a, op)[i]
      ensures op in a.stakeChains && op in c.stakeChains && i in a.stakeChains[op].stakeInputs
      ensures i in c.stakeChains[op].stakeInputs
      ensures c.stakeChains[op].stakeInputs[i] == a.stakeChains[op].stakeInputs[i]
    {
      assert i in CachedTxids(b, op);
    }
  }

  lemma ExtendsItself(cfg: StakeCfg, c: Chains)
    requires Valid(cfg, c)
    ensures Extends(c, c)
  {
    forall op: OpKey, i: nat | i in CachedTxids(c, op)
      ensures op in c.stakeChains && i in c.stakeChains[op].stakeInputs
    {
      assert CacheIsChain(cfg, c, op);
    }
  }

  /** A setup keeps the invariant and everything cached; it yields a txid exactly for a known operator at an index
      not beyond the height, and that txid is the chain's. */
  lemma SetupKeepsValid(cfg: StakeCfg, c: Chains, op: OpKey, index: nat, input: StakeInput)
    requires Valid(cfg, c)
    ensures var (c', result) := Setup(cfg, c, op, index, input);
      && Valid(cfg, c') && Extends(c, c')
      && (result.Success? <==> op in c.stakeChains && index <= HeightOf(c, op))
      && (result.Success? ==>
            && result.value.Some? && index < HeightOf(c', op)
            && op in c'.stakeChains && HasInputs(c'.stakeChains[op], index + 1)
            && result.value.value == CachedTxids(c', op)[index] == ChainTxid(cfg, c'.stakeChains[op], index))
      && HeightOf(c', op) == HeightOf(c, op) + (if op in c.stakeChains && index == HeightOf(c, op) then 1 else 0)
  {
    hide Valid, Extends, StakeTxAt;
    CacheAt(cfg, c, op);
    if index in CachedTxids(c, op) {
      ExtendsItself(cfg, c);
    } else if op in c.stakeChains {
      var c1 := StoreInput(c, op, index, input);
      StoreKeepsValid(cfg, c, op, index, input);
      BuildableIff(cfg, c1, op, index);
      if index == HeightOf(c1, op) {
        CacheNextKeepsValid(cfg, c1, op, index);
        var c2 := Setup(cfg, c, op, index, input).0;
        ExtendsTransitive(c, c1, c2);
        CacheAt(cfg, c2, op);
      }
    } else {
      ExtendsItself(cfg, c);
    }
  }

  /** Why a setup yields no txid: an unknown operator, or an index beyond the height, of an operator without or with
      a cached txid. */
  lemma SetupErrors(cfg: StakeCfg, c: Chains, op: OpKey, index: nat, input: StakeInput)
    requires Valid(cfg, c) && (op !in c.stakeChains || index > HeightOf(c, op))
    ensures Setup(cfg, c, op, index, input).1 == Failure(
      if op !in c.stakeChains then SetupDataNotFound
      else if op !in c.stakeTxids then StakeTxNotFound else MissingStakeTxid)
  {
    hide Valid;
    CacheAt(cfg, c, op);
  }

  lemma CacheAt(cfg: StakeCfg, c: Chains, op: OpKey)
    requires Valid(cfg, c)
    ensures CacheIsChain(cfg, c, op)
  {
  }

  // ---------- runs ----------

  datatype Message = ExchangeMsg(op: OpKey, preStake: nat) | SetupMsg(op: OpKey, index: nat, input: StakeInput)

  function Receive(cfg: StakeCfg, c: Chains, msg: Message): Chains {
    match msg
    case ExchangeMsg(op, preStake) => Exchange(c, op, preStake)
    case SetupMsg(op, index, input) => Setup(cfg, c, op, index, input).0
  }

  function ReceiveAll(cfg: StakeCfg, c: Chains, msgs: seq<Message>): Chains {
    if msgs == [] then c else Receive(cfg, ReceiveAll(cfg, c, msgs[..|msgs| - 1]), msgs[|msgs| - 1])
  }

  lemma {:induction false} RunsExtend(cfg: StakeCfg, c: Chains, msgs: seq<Message>)
    requires Valid(cfg, c)
    ensures Valid(cfg, ReceiveAll(cfg, c, msgs)) && Extends(c, ReceiveAll(cfg, c, msgs))
    decreases |msgs|
  {
    hide Valid, Extends, Setup, Exchange;
    if msgs == [] {
      ExtendsItself(cfg, c);
    } else {
      var front := msgs[..|msgs| - 1];
      RunsExtend(cfg, c, front);
      var before := ReceiveAll(cfg, c, front);
      match msgs[|msgs| - 1]
      case ExchangeMsg(op, preStake) =>
        ExchangeKeepsValid(cfg, before, op, preStake);
        ExtendsTransitive(c, before, Exchange(before, op, preStake));
      case SetupMsg(op, index, input) =>
        SetupKeepsValid(cfg, before, op, index, input);
        ExtendsTransitive(c, before, Setup(cfg, before, op, index, input).0);
    }
  }

  lemma InitiallyValid(cfg: StakeCfg)
    ensures Valid(cfg, Chains(map[], map[]))
  {
    var none: map<nat, Txid> := map[];
    assert |none| == 0;
  }

  /** Out-of-order, repeated and redundant messages included: every cache is a gap-free prefix of the chain its
      stored inputs define, and whatever was cached at any point of the run is still there, made from
      the same inputs. */
  lemma CacheAlwaysIsChain(cfg: StakeCfg, before: seq<Message>, after: seq<Message>)
    ensures var c := ReceiveAll(cfg, Chains(map[], map[]), before); var c' := ReceiveAll(cfg, c, after);
      Valid(cfg, c) && Valid(cfg, c') && Extends(c, c')
  {
    InitiallyValid(cfg);
    RunsExtend(cfg, Chains(map[], map[]), before);
    RunsExtend(cfg, ReceiveAll(cfg, Chains(map[], map[]), before), after);
  }

  // ---------- the machine as an object ----------

  class StakeChainSM {
    const cfg: StakeCfg
    var stakeChains: map<OpKey, ChainInputs>
    var stakeTxids: map<OpKey, map<nat, Txid>>

    ghost function Value(): Chains
      reads this
    {
      Chains(stakeChains, stakeTxids)
    }

    ghost predicate Ok()
      reads this
    {
      Valid(cfg, Value())
    }

    constructor (cfg: StakeCfg)
      ensures this.cfg == cfg && Ok() && Value() == Chains(map[], map[])
    {
      this.cfg := cfg;
      stakeChains, stakeTxids := map[], map[];
      new;
      InitiallyValid(cfg);
    }

    constructor FromParts(cfg: StakeCfg, stakeChains: map<OpKey, ChainInputs>, stakeTxids: map<OpKey, map<nat, Txid>>)
      ensures this.cfg == cfg && Value() == Chains(stakeChains, stakeTxids)
    {
      this.cfg := cfg;
      this.stakeChains, this.stakeTxids := stakeChains, stakeTxids;
    }

    /** A repeated exchange is ignored: the entry is first replaced and then put back. */
    method ProcessExchange(op: OpKey, preStake: nat)
      requires Ok()
      modifies this`stakeChains
      ensures Ok() && Value() == Exchange(old(Value()), op, preStake) && Extends(old(Value()), Value())
    {
      hide Valid, Extends;
      ExchangeKeepsValid(cfg, Value(), op, preStake);
      var replaced := if op in stakeChains then Some(stakeChains[op]) else None;
      stakeChains := stakeChains[op := ChainInputs(map[], preStake)];
      if replaced.Some? {
        stakeChains := stakeChains[op := replaced.value];
        assert stakeChains == old(stakeChains);
      }
    }

    method ProcessSetup(op: OpKey, index: nat, input: StakeInput) returns (result: Result<Option<Txid>>)
      requires Ok()
      modifies this
      ensures Ok() && (Value(), result) == Setup(cfg, old(Value()), op, index, input) && Extends(old(Value()), Value())
    {
      hide Valid, Extends, StakeTxAt;
      SetupKeepsValid(cfg, Value(), op, index, input);
      if op in stakeTxids && index in stakeTxids[op] {
        return Success(Some(stakeTxids[op][index]));
      }
      if op !in stakeChains {
        return Failure(SetupDataNotFound);
      }
      var chain := stakeChains[op];
      stakeChains := stakeChains[op := chain.(stakeInputs := chain.stakeInputs[index := input])];
      var stakeTx := StakeTxOf(op, index);
      match stakeTx {
        case Failure(e) =>
          return Failure(e);
        case Success(None) =>
          return Success(None);
        case Success(Some(tx)) =>
          var txid := cfg.txidOf(tx);
          var txids: map<nat, Txid> := if op in stakeTxids then stakeTxids[op] else map[];
          stakeTxids := stakeTxids[op := txids[index := txid]];
          return Success(Some(txid));
      }
    }

    method StakeTxOf(op: OpKey, nth: nat) returns (result: Result<Option<StakeTx>>)
      ensures result == StakeTxAt(Value(), op, nth)
    {
      if op !in stakeChains {
        return Success(None);
      }
      var chain := stakeChains[op];
      if nth == 0 {
        var inputs := Sorted(chain.stakeInputs.Keys);
        if inputs == [] {
          assert chain.stakeInputs.Keys == {};
          return Failure(StakeTxNotFound);
        }
        assert inputs[0] in inputs;
        HeadIsLeast(inputs, chain.stakeInputs.Keys, MinOf(chain.stakeInputs.Keys));
        return Success(Some(Head(chain.stakeInputs[inputs[0]], chain.preStake)));
      }
      if op !in stakeTxids {
        return Failure(StakeTxNotFound);
      }
      if nth - 1 !in stakeTxids[op] {
        return Failure(MissingStakeTxid);
      }
      if nth - 1 !in chain.stakeInputs || nth !in chain.stakeInputs {
        return Failure(IncompleteInput);
      }
      return Success(Some(Tail(chain.stakeInputs[nth], chain.stakeInputs[nth - 1].hash, stakeTxids[op][nth - 1])));
    }

    /** This operator's own height: every index below it is cached, none from it on. */
    method Height() returns (h: nat)
      requires Ok()
      ensures forall i: nat :: i in CachedTxids(Value(), cfg.pov) <==> i < h
    {
      CacheAt(cfg, Value(), cfg.pov);
      return if cfg.pov in stakeTxids then |stakeTxids[cfg.pov]| else 0;
    }
  }
}
