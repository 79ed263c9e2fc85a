/** Restoring the stake chains from their persisted inputs, and exactly when that gives the cache back. */
module StakeRestore {
  import opened Collections
  import opened StakeChain

  // ---------- rebuilding one chain ----------

  /** How many of the first `n` inputs there are before the first gap. */
  function Unbroken(inputs: ChainInputs, n: nat): nat {
    if n == 0 then 0
    else
      var k := Unbroken(inputs, n - 1);
      if k == n - 1 && k in inputs.stakeInputs then n else k
  }

  function ChainLength(inputs: ChainInputs): nat {
    Unbroken(inputs, |inputs.stakeInputs|)
  }

  lemma {:induction false} UnbrokenFacts(inputs: ChainInputs, n: nat)
    ensures var k := Unbroken(inputs, n); k <= n && HasInputs(inputs, k) && (k < n ==> k !in inputs.stakeInputs)
  {
    if n > 0 { UnbrokenFacts(inputs, n - 1); }
  }

  lemma EnoughInputs(inputs: ChainInputs, n: nat)
    requires HasInputs(inputs, n)
    ensures n <= |inputs.stakeInputs| && (n in inputs.stakeInputs ==> n < |inputs.stakeInputs|)
  {
    var keys := inputs.stakeInputs.Keys;
    SubsetSize(Below(n), keys);
    if n in keys { SubsetSize(Below(n) + {n}, keys); }
  }

  /** The length is the position of the first gap, wherever later inputs lie. */
  lemma LengthIsFirstGap(inputs: ChainInputs)
    ensures HasInputs(inputs, ChainLength(inputs)) && ChainLength(inputs) !in inputs.stakeInputs
  {
    UnbrokenFacts(inputs, |inputs.stakeInputs|);
    EnoughInputs(inputs, ChainLength(inputs));
  }

  lemma FirstGapIsLength(inputs: ChainInputs, n: nat)
    requires HasInputs(inputs, n)
    ensures n <= ChainLength(inputs) && (n == ChainLength(inputs) <==> n !in inputs.stakeInputs)
  {
    LengthIsFirstGap(inputs);
  }

  /** The txids of the rebuilt chain by index. */
  ghost function Built(cfg: StakeCfg, inputs: ChainInputs): (txids: map<nat, Txid>)
    ensures |txids| == ChainLength(inputs)
  {
    LengthIsFirstGap(inputs);
    var txids := map i | i in Below(ChainLength(inputs)) :: ChainTxid(cfg, inputs, i);
    assert txids.Keys == Below(ChainLength(inputs));
    txids
  }

  /** Head, second transaction, then one per consecutive input up to the first gap. */
  method BuildChain(cfg: StakeCfg, inputs: ChainInputs) returns (txids: seq<Txid>)
    ensures |txids| == ChainLength(inputs) && HasInputs(inputs, |txids|)
    ensures forall i | 0 <= i < |txids| :: txids[i] == ChainTxid(cfg, inputs, i)
  {
    LengthIsFirstGap(inputs);
    var given := inputs.stakeInputs;
    if 0 !in given {
      FirstGapIsLength(inputs, 0);
      return [];
    }
    txids := [cfg.txidOf(Head(given[0], inputs.preStake))];
    if 1 !in given {
      FirstGapIsLength(inputs, 1);
      return;
    }
    txids := txids + [cfg.txidOf(Tail(given[1], given[0].hash, txids[0]))];
    EnoughInputs(inputs, 2);
    for n := 2 to |given|
      invariant |txids| == n && HasInputs(inputs, n)
      invariant forall i | 0 <= i < n :: txids[i] == ChainTxid(cfg, inputs, i)
    {
      if n !in given {
        FirstGapIsLength(inputs, n);
        return;
      }
      txids := txids + [cfg.txidOf(Tail(given[n], given[n - 1].hash, txids[n - 1]))];
    }
    EnoughInputs(inputs, |given|);
    FirstGapIsLength(inputs, |given|);
  }

  // ---------- restoring all chains ----------

  /** The operators that have a chain. */
  function Present(ops: seq<OpKey>, chains: map<OpKey, ChainInputs>): (present: seq<OpKey>)
    ensures |present| <= |ops| && forall op | op in present :: op in chains
  {
    if ops == [] then []
    else
      var front, last := ops[..|ops| - 1], ops[|ops| - 1];
      Present(front, chains) + if last in chains then [last] else []
  }

  /** Keys paired with values from the front; keys left over get nothing. */
  function Zip(ops: seq<OpKey>, values: seq<map<nat, Txid>>): map<OpKey, map<nat, Txid>>
    requires |values| <= |ops|
  {
    if values == [] then map[]
    else
      var n := |values| - 1;
      Zip(ops, values[..n])[ops[n] := values[n]]
  }

  ghost function BuiltChains(cfg: StakeCfg, present: seq<OpKey>, chains: map<OpKey, ChainInputs>): seq<map<nat, Txid>>
    requires forall op | op in present :: op in chains
  {
    seq(|present|, i requires 0 <= i < |present| => assert present[i] in present; Built(cfg, chains[present[i]]))
  }

  /** The chains of the operators that have one, paired with all operators in key order. */
  ghost function Restored(cfg: StakeCfg, keys: set<OpKey>, chains: map<OpKey, ChainInputs>): Chains {
    var ops := Sorted(keys);
    Chains(chains, Zip(ops, BuiltChains(cfg, Present(ops, chains), chains)))
  }

  function ToMap(txids: seq<Txid>): map<nat, Txid> {
    map i | i in Below(|txids|) :: txids[i]
  }

  lemma ToMapIsBuilt(cfg: StakeCfg, inputs: ChainInputs, txids: seq<Txid>)
    requires |txids| == ChainLength(inputs) && HasInputs(inputs, |txids|)
    requires forall i | 0 <= i < |txids| :: txids[i] == ChainTxid(cfg, inputs, i)
    ensures ToMap(txids) == Built(cfg, inputs)
  {
  }

  method BuildAll(cfg: StakeCfg, ops: seq<OpKey>, chains: map<OpKey, ChainInputs>) returns (built: seq<map<nat, Txid>>)
    ensures built == BuiltChains(cfg, Present(ops, chains), chains)
  {
    hide Built, ToMap, ChainLength;
    built := [];
    for n := 0 to |ops|
      invariant built == BuiltChains(cfg, Present(ops[..n], chains), chains)
    {
      assert ops[..n + 1] == ops[..n] + [ops[n]];
      if ops[n] in chains {
        var txids := BuildChain(cfg, chains[ops[n]]);
        ToMapIsBuilt(cfg, chains[ops[n]], txids);
        built := built + [ToMap(txids)];
      }
    }
    assert ops[..|ops|] == ops;
  }

  method ZipAll(ops: seq<OpKey>, built: seq<map<nat, Txid>>) returns (zipped: map<OpKey, map<nat, Txid>>)
    requires |built| <= |ops|
    ensures zipped == Zip(ops, built)
  {
    zipped := map[];
    for n := 0 to |built|
      invariant zipped == Zip(ops, built[..n])
    {
      assert built[..n + 1][..n] == built[..n];
      zipped := zipped[ops[n] := built[n]];
    }
    assert built[..|built|] == built;
  }

  method Restore(cfg: StakeCfg, keys: set<OpKey>, chains: map<OpKey, ChainInputs>) returns (sm: StakeChainSM)
    ensures fresh(sm) && sm.cfg == cfg && sm.Value() == Restored(cfg, keys, chains)
  {
    hide Built, Zip;
    var ops := Sorted(keys);
    var built := BuildAll(cfg, ops, chains);
    var txids := ZipAll(ops, built);
    sm := new StakeChainSM.FromParts(cfg, chains, txids);
  }

  // ---------- who gets which chain ----------

  lemma {:induction false} ZipFacts(ops: seq<OpKey>, values: seq<map<nat, Txid>>)
    requires |values| <= |ops| && Increasing(ops)
    ensures forall j: nat | j < |values| :: ops[j] in Zip(ops, values) && Zip(ops, values)[ops[j]] == values[j]
    ensures forall op | op in Zip(ops, values) :: op in ops[..|values|]
    decreases |values|
  {
    if values != [] {
      var n := |values| - 1;
      ZipFacts(ops, values[..n]);
      assert ops[..n + 1] == ops[..n] + [ops[n]];
      forall j: nat | j < n ensures ops[j] != ops[n] { assert Before(j, n); }
    }
  }

  lemma {:induction false} PresentPrefix(ops: seq<OpKey>, chains: map<OpKey, ChainInputs>, n: nat)
    requires n <= |ops|
    ensures Present(ops[..n], chains) <= Present(ops, chains)
    decreases |ops|
  {
    if n == |ops| {
      assert ops[..n] == ops;
    } else {
      var front := ops[..|ops| - 1];
      assert front[..n] == ops[..n];
      PresentPrefix(front, chains, n);
    }
  }

  /** An operator with a chain is listed behind exactly those before it that have one. */
  lemma ListedAt(ops: seq<OpKey>, chains: map<OpKey, ChainInputs>, k: nat)
    requires k < |ops| && ops[k] in chains
    ensures var at := |Present(ops[..k], chains)|; at < |Present(ops, chains)| && Present(ops, chains)[at] == ops[k]
  {
    assert ops[..k + 1][..k] == ops[..k];
    PresentPrefix(ops, chains, k + 1);
  }

  lemma {:induction false} ListedFrom(ops: seq<OpKey>, chains: map<OpKey, ChainInputs>, j: nat) returns (k: nat)
    requires j < |Present(ops, chains)|
    ensures j <= k < |ops| && ops[k] == Present(ops, chains)[j] && j == |Present(ops[..k], chains)|
    decreases |ops|
  {
    var front := ops[..|ops| - 1];
    if j < |Present(front, chains)| {
      k := ListedFrom(front, chains, j);
      assert front[..k] == ops[..k];
    } else {
      k := |ops| - 1;
    }
  }

  /** Nobody is skipped exactly when everybody has a chain. */
  lemma {:induction false} PresentIsAllIff(ops: seq<OpKey>, chains: map<OpKey, ChainInputs>)
    ensures |Present(ops, chains)| == |ops| <==> forall op | op in ops :: op in chains
    decreases |ops|
  {
    if ops != [] {
      var front, last := ops[..|ops| - 1], ops[|ops| - 1];
      assert ops == front + [last];
      PresentIsAllIff(front, chains);
    }
  }

  // ---------- when restoring is right ----------

  /** No operator without a chain comes, in key order, before one with a stake transaction. */
  ghost predicate Aligned(keys: set<OpKey>, chains: map<OpKey, ChainInputs>) {
    forall a, b | a in keys && b in keys && a < b && a !in chains && b in chains :: 0 !in chains[b].stakeInputs
  }

  /** The first stake transaction's txid determines the pre-stake it spends. */
  ghost predicate HeadsBindPreStake(cfg: StakeCfg) {
    forall x: StakeInput, y: StakeInput, p: nat, q: nat :: cfg.txidOf(Head(x, p)) == cfg.txidOf(Head(y, q)) ==> p == q
  }

  ghost predicate DistinctPreStakes(chains: map<OpKey, ChainInputs>) {
    forall a, b | a in chains && b in chains && a != b :: chains[a].preStake != chains[b].preStake
  }

  lemma EarlierKeys(keys: set<OpKey>, k: nat, op: OpKey)
    requires k < |Sorted(keys)|
    ensures op in Sorted(keys)[..k] <==> op in keys && op < Sorted(keys)[k]
  {
    var ops := Sorted(keys);
    if op in ops[..k] {
      var i :| 0 <= i < k && ops[i] == op;
      assert Before(i, k);
    }
    if op in keys && op < ops[k] {
      var i: nat :| i < |ops| && ops[i] == op;
      assert i > k ==> Before(k, i);
    }
  }

  /** Where nobody was skipped, an operator's restored txids are its own. */
  lemma OwnChain(cfg: StakeCfg, keys: set<OpKey>, chains: map<OpKey, ChainInputs>, op: OpKey)
    requires op in keys && op in chains && forall a | a in keys && a < op :: a in chains
    ensures CachedTxids(Restored(cfg, keys, chains), op) == Built(cfg, chains[op])
  {
    hide Built, Sorted;
    var ops := Sorted(keys);
    var k: nat :| k < |ops| && ops[k] == op;
    forall a | a in ops[..k] ensures a in chains { EarlierKeys(keys, k, a); }
    PresentIsAllIff(ops[..k], chains);
    ListedAt(ops, chains, k);
    ZipFacts(ops, BuiltChains(cfg, Present(ops, chains), chains));
  }

  /** When all is aligned, a restored entry is empty or the operator's own chain. */
  lemma RestoredEntry(cfg: StakeCfg, keys: set<OpKey>, chains: map<OpKey, ChainInputs>, op: OpKey)
    requires Aligned(keys, chains)
    ensures var txids := CachedTxids(Restored(cfg, keys, chains), op);
      txids == map[] || (op in keys && op in chains && (forall a | a in keys && a < op :: a in chains)
        && txids == Built(cfg, chains[op]))
  {
    hide Sorted;
    var ops := Sorted(keys);
    var present := Present(ops, chains);
    var values := BuiltChains(cfg, present, chains);
    ZipFacts(ops, values);
    if op in Zip(ops, values) {
      var j: nat :| j < |values| && ops[j] == op;
      var k := ListedFrom(ops, chains, j);
      assert ops[k] in ops && present[j] in present;
      if 0 in chains[ops[k]].stakeInputs {
        forall a | a in ops[..k] ensures a in chains { EarlierKeys(keys, k, a); }
        forall a | a in keys && a < ops[k] ensures a in chains { EarlierKeys(keys, k, a); }
        PresentIsAllIff(ops[..k], chains);
      } else {
        FirstGapIsLength(chains[ops[k]], 0);
        assert values[j] == map[];
      }
    }
  }

  lemma BuiltIsChain(cfg: StakeCfg, c: Chains, op: OpKey)
    requires op in c.stakeChains && CachedTxids(c, op) == Built(cfg, c.stakeChains[op])
    ensures CacheIsChain(cfg, c, op)
  {
    LengthIsFirstGap(c.stakeChains[op]);
  }

  /** Behind an operator without a chain, every chain goes to an earlier operator than its own. */
  lemma GivenToAnother(cfg: StakeCfg, keys: set<OpKey>, chains: map<OpKey, ChainInputs>, a: OpKey, b: OpKey)
    returns (op: OpKey)
    requires a in keys && b in keys && a < b && a !in chains && b in chains
    ensures op in keys && op < b && CachedTxids(Restored(cfg, keys, chains), op) == Built(cfg, chains[b])
  {
    hide Built, Sorted;
    var ops := Sorted(keys);
    var k: nat :| k < |ops| && ops[k] == b;
    EarlierKeys(keys, k, a);
    PresentIsAllIff(ops[..k], chains);
    ListedAt(ops, chains, k);
    var j := |Present(ops[..k], chains)|;
    assert Before(j, k);
    op := ops[j];
    ZipFacts(ops, BuiltChains(cfg, Present(ops, chains), chains));
  }

  lemma SkippedMeansWrong(cfg: StakeCfg, keys: set<OpKey>, chains: map<OpKey, ChainInputs>, a: OpKey, b: OpKey)
    requires HeadsBindPreStake(cfg) && DistinctPreStakes(chains)
    requires a in keys && b in keys && a < b && a !in chains && b in chains && 0 in chains[b].stakeInputs
    ensures !Valid(cfg, Restored(cfg, keys, chains))
  {
    hide HeadsBindPreStake, Valid, Restored;
    var c := Restored(cfg, keys, chains);
    RestoredKeepsInputs(cfg, keys, chains);
    var op := GivenToAnother(cfg, keys, chains, a, b);
    FirstGapIsLength(chains[b], 0);
    if Valid(cfg, c) {
      CacheAt(cfg, c, op);
      FirstTxidBinds(cfg, chains[b], chains[op]);
    }
  }

  lemma FirstTxidBinds(cfg: StakeCfg, x: ChainInputs, y: ChainInputs)
    requires HeadsBindPreStake(cfg) && HasInputs(x, 1) && HasInputs(y, 1)
    requires ChainTxid(cfg, x, 0) == ChainTxid(cfg, y, 0)
    ensures x.preStake == y.preStake
  {
  }

  /** Restoring gives every operator a prefix of its own chain if and only if no operator without a chain comes before
      one with a stake transaction. */
  lemma RestoredValidIff(cfg: StakeCfg, keys: set<OpKey>, chains: map<OpKey, ChainInputs>)
    requires HeadsBindPreStake(cfg) && DistinctPreStakes(chains)
    ensures Valid(cfg, Restored(cfg, keys, chains)) <==> Aligned(keys, chains)
  {
    hide Restored, HeadsBindPreStake, DistinctPreStakes, Built;
    var c := Restored(cfg, keys, chains);
    if Aligned(keys, chains) {
      forall op: OpKey ensures CacheIsChain(cfg, c, op) {
        RestoredEntry(cfg, keys, chains, op);
        RestoredKeepsInputs(cfg, keys, chains);
        if CachedTxids(c, op) != map[] { BuiltIsChain(cfg, c, op); }
      }
    } else {
      var a, b :| a in keys && b in keys && a < b && a !in chains && b in chains && 0 in chains[b].stakeInputs;
      SkippedMeansWrong(cfg, keys, chains, a, b);
    }
  }

  lemma RestoredKeepsInputs(cfg: StakeCfg, keys: set<OpKey>, chains: map<OpKey, ChainInputs>)
    ensures Restored(cfg, keys, chains).stakeChains == chains
  {
  }

  /** Every operator has the same txids. */
  ghost predicate SameCaches(a: Chains, b: Chains) {
    forall op: OpKey :: CachedTxids(a, op) == CachedTxids(b, op)
  }

  /** No input waits at the height, where only a repeated setup would make it count. */
  ghost predicate NoneWaiting(c: Chains) {
    forall op | op in c.stakeChains :: HeightOf(c, op) !in c.stakeChains[op].stakeInputs
  }

  lemma BuiltExtendsCache(cfg: StakeCfg, c: Chains, op: OpKey)
    requires CacheIsChain(cfg, c, op) && op in c.stakeChains
    ensures CachedTxids(c, op) == Built(cfg, c.stakeChains[op]) <==> HeightOf(c, op) !in c.stakeChains[op].stakeInputs
  {
    var inputs, txids := c.stakeChains[op], CachedTxids(c, op);
    FirstGapIsLength(inputs, HeightOf(c, op));
    if HeightOf(c, op) == ChainLength(inputs) {
      assert txids.Keys == Below(|txids|);
    }
  }

  lemma SameMeansValid(cfg: StakeCfg, a: Chains, b: Chains)
    requires Valid(cfg, a) && SameCaches(a, b) && a.stakeChains == b.stakeChains
    ensures Valid(cfg, b)
  {
    forall op: OpKey ensures CacheIsChain(cfg, b, op) { assert CacheIsChain(cfg, a, op); }
  }

  /** For a valid machine: restoring its inputs gives its cache back if and only if they are aligned and no input waits
      at the height. */
  lemma RestoredIsCacheIff(cfg: StakeCfg, keys: set<OpKey>, c: Chains)
    requires HeadsBindPreStake(cfg) && DistinctPreStakes(c.stakeChains) && Valid(cfg, c) && c.stakeChains.Keys <= keys
    ensures SameCaches(Restored(cfg, keys, c.stakeChains), c) <==> Aligned(keys, c.stakeChains) && NoneWaiting(c)
  {
    hide Restored, HeadsBindPreStake, DistinctPreStakes, Built, Valid;
    var r := Restored(cfg, keys, c.stakeChains);
    RestoredKeepsInputs(cfg, keys, c.stakeChains);
    RestoredValidIff(cfg, keys, c.stakeChains);
    if SameCaches(r, c) { SameMeansValid(cfg, c, r); }
    if Aligned(keys, c.stakeChains) {
      forall op: OpKey
        ensures CachedTxids(r, op) == CachedTxids(c, op)
          <==> op !in c.stakeChains || HeightOf(c, op) !in c.stakeChains[op].stakeInputs
      {
        SameForOperator(cfg, keys, c, op);
      }
    }
  }

  lemma SameForOperator(cfg: StakeCfg, keys: set<OpKey>, c: Chains, op: OpKey)
    requires Aligned(keys, c.stakeChains) && Valid(cfg, c) && c.stakeChains.Keys <= keys
    ensures CachedTxids(Restored(cfg, keys, c.stakeChains), op) == CachedTxids(c, op)
      <==> op !in c.stakeChains || HeightOf(c, op) !in c.stakeChains[op].stakeInputs
  {
    hide Restored, Built, Valid;
    CacheAt(cfg, c, op);
    RestoredEntry(cfg, keys, c.stakeChains, op);
    if op in c.stakeChains {
      BuiltExtendsCache(cfg, c, op);
      FirstGapIsLength(c.stakeChains[op], 0);
      if 0 in c.stakeChains[op].stakeInputs {
        OwnChain(cfg, keys, c.stakeChains, op);
      } else {
        EmptyBuilt(cfg, c.stakeChains[op]);
      }
    }
  }

  lemma EmptyBuilt(cfg: StakeCfg, inputs: ChainInputs)
    requires ChainLength(inputs) == 0
    ensures Built(cfg, inputs) == map[]
  {
  }

  // ---------- over runs ----------

  lemma {:induction false} OnlySenders(cfg: StakeCfg, keys: set<OpKey>, msgs: seq<Message>)
    requires forall msg | msg in msgs :: msg.op in keys
    ensures ReceiveAll(cfg, Chains(map[], map[]), msgs).stakeChains.Keys <= keys
    decreases |msgs|
  {
    hide StakeTxAt;
    if msgs != [] {
      var front, msg := msgs[..|msgs| - 1], msgs[|msgs| - 1];
      assert msgs == front + [msg] && msg in msgs;
      OnlySenders(cfg, keys, front);
    }
  }

  /** After any messages of the operators: restarting gives the same txids if and only if no operator that has not
      exchanged comes before one with a stake transaction, and no setup that came too early still waits. */
  lemma RestartIsHarmlessIff(cfg: StakeCfg, keys: set<OpKey>, msgs: seq<Message>)
    requires HeadsBindPreStake(cfg) && forall msg | msg in msgs :: msg.op in keys
    requires DistinctPreStakes(ReceiveAll(cfg, Chains(map[], map[]), msgs).stakeChains)
    ensures var c := ReceiveAll(cfg, Chains(map[], map[]), msgs);
      SameCaches(Restored(cfg, keys, c.stakeChains), c) <==> Aligned(keys, c.stakeChains) && NoneWaiting(c)
  {
    hide Restored, SameCaches, Aligned, NoneWaiting, HeadsBindPreStake, DistinctPreStakes;
    OnlySenders(cfg, keys, msgs);
    InitiallyValid(cfg);
    RunsExtend(cfg, Chains(map[], map[]), msgs);
    RestoredIsCacheIff(cfg, keys, ReceiveAll(cfg, Chains(map[], map[]), msgs));
  }

  lemma FirstSetup(cfg: StakeCfg, op: OpKey, preStake: nat, input: StakeInput)
    ensures ReceiveAll(cfg, Chains(map[], map[]), [ExchangeMsg(op, preStake), SetupMsg(op, 0, input)])
         == Chains(map[op := ChainInputs(map[0 := input], preStake)],
                   map[op := map[0 := cfg.txidOf(Head(input, preStake))]])
  {
    var exchange, setup := ExchangeMsg(op, preStake), SetupMsg(op, 0, input);
    assert [exchange, setup][..1] == [exchange] && [exchange][..0] == [];
    var c: Chains := Chains(map[op := ChainInputs(map[], preStake)], map[]);
    assert ReceiveAll(cfg, Chains(map[], map[]), [exchange]) == c;
    var stored: map<nat, StakeInput> := map[0 := input];
    var none: map<nat, Txid> := map[];
    assert CachedTxids(c, op) == none;
    assert StoreInput(c, op, 0, input) == Chains(map[op := ChainInputs(stored, preStake)], map[]);
    assert 0 in stored.Keys && MinOf(stored.Keys) == 0;
  }

  lemma RestoredBehindGap(cfg: StakeCfg, chains: map<OpKey, ChainInputs>)
    requires 0 !in chains && 1 in chains
    ensures CachedTxids(Restored(cfg, {0, 1}, chains), 0) == Built(cfg, chains[1])
    ensures CachedTxids(Restored(cfg, {0, 1}, chains), 1) == map[]
  {
    hide Built;
    var ops: seq<OpKey> := [0, 1];
    assert Lists(ops, {0, 1});
    SortedUnique({0, 1});
    assert Sorted({0, 1}) == ops;
    assert ops[..1] == [0] && [0][..0] == [];
    assert Present([0], chains) == [];
    assert Present(ops, chains) == [1];
    ZipFacts(ops, BuiltChains(cfg, [1], chains));
    assert 1 !in ops[..1];
  }

  /** Operator 0 has not exchanged yet: after a restart it holds operator 1's txids and operator 1 none. */
  lemma RestartShiftsChains(cfg: StakeCfg, preStake: nat, input: StakeInput)
    ensures var c := ReceiveAll(cfg, Chains(map[], map[]), [ExchangeMsg(1, preStake), SetupMsg(1, 0, input)]);
      var r := Restored(cfg, {0, 1}, c.stakeChains);
      && CachedTxids(c, 1) != map[] && CachedTxids(c, 0) == map[]
      && CachedTxids(r, 0) == CachedTxids(c, 1) && CachedTxids(r, 1) == map[]
  {
    hide Restored, Built, Receive, Valid;
    var msgs := [ExchangeMsg(1, preStake), SetupMsg(1, 0, input)];
    var c := ReceiveAll(cfg, Chains(map[], map[]), msgs);
    FirstSetup(cfg, 1, preStake, input);
    InitiallyValid(cfg);
    RunsExtend(cfg, Chains(map[], map[]), msgs);
    CacheAt(cfg, c, 1);
    BuiltExtendsCache(cfg, c, 1);
    RestoredBehindGap(cfg, c.stakeChains);
  }

  lemma SetupStores(cfg: StakeCfg, c: Chains, op: OpKey, index: nat, input: StakeInput)
    requires op in c.stakeChains && index !in CachedTxids(c, op)
    ensures Setup(cfg, c, op, index, input).0.stakeChains == StoreInput(c, op, index, input).stakeChains
  {
    hide StakeTxAt;
  }

  /** A setup that came too early counts only after a restart: the restored chain is one longer than the cache. */
  lemma RestartLengthensChain(cfg: StakeCfg, preStake: nat, first: StakeInput, second: StakeInput)
    ensures var c := ReceiveAll(cfg, Chains(map[], map[]),
                                [ExchangeMsg(0, preStake), SetupMsg(0, 1, second), SetupMsg(0, 0, first)]);
      HeightOf(c, 0) == 1 && HeightOf(Restored(cfg, {0}, c.stakeChains), 0) == 2
  {
    hide Restored, Built, Valid, Extends, Setup;
    var msgs := [ExchangeMsg(0, preStake), SetupMsg(0, 1, second), SetupMsg(0, 0, first)];
    assert msgs[..2] == [msgs[0], msgs[1]] && [msgs[0], msgs[1]][..1] == [msgs[0]] && [msgs[0]][..0] == [];
    var none: map<nat, Txid> := map[];
    assert |none| == 0;
    var c0 := ReceiveAll(cfg, Chains(map[], map[]), [msgs[0]]);
    var c1 := ReceiveAll(cfg, Chains(map[], map[]), [msgs[0], msgs[1]]);
    var c := ReceiveAll(cfg, Chains(map[], map[]), msgs);
    InitiallyValid(cfg);
    RunsExtend(cfg, Chains(map[], map[]), [msgs[0]]);
    SetupKeepsValid(cfg, c0, 0, 1, second);
    SetupStores(cfg, c0, 0, 1, second);
    SetupKeepsValid(cfg, c1, 0, 0, first);
    CacheAt(cfg, c1, 0);
    SetupStores(cfg, c1, 0, 0, first);
    OwnChain(cfg, {0}, c.stakeChains, 0);
    FirstGapIsLength(c.stakeChains[0], 2);
  }
}
