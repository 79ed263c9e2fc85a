/** The peg-out graph cache: whatever it returns for a stored input is what rebuilding would give. */
module ContractCache {
  import opened Collections
  import opened ContractTypes
  import opened ContractSpec

  predicate Owns(owner: map<Txid, OpKey>, op: OpKey, stakeTxid: Txid) {
    stakeTxid in owner && owner[stakeTxid] == op
  }

  /** Every cached graph was built from its owner's stored input, at the stake txid it is filed under. */
  ghost predicate CacheOk(cfg: Cfg, owner: map<Txid, OpKey>, inputs: map<OpKey, GraphInput>, pog: map<Txid, Graph>) {
    && (forall op | op in inputs :: Owns(owner, op, inputs[op].stakeTxid))
    && (forall t | t in pog ::
          && t in owner && owner[t] in inputs
          && pog[t] == cfg.buildGraph(inputs[owner[t]].(stakeTxid := t)))
  }

  ghost predicate MachineCacheOk(cfg: Cfg, owner: map<Txid, OpKey>, m: Machine) {
    m.state.Requested? ==> CacheOk(cfg, owner, m.state.r.inputs, m.pog)
  }

  /** Stake txids identify operators: a setup only ever names a stake txid of its sender. */
  predicate OwnStake(owner: map<Txid, OpKey>, ev: Event) {
    ev.DepositSetup? ==> Owns(owner, ev.op, ev.stakeTxid)
  }

  lemma CachedIsRebuilt(cfg: Cfg, owner: map<Txid, OpKey>, inputs: map<OpKey, GraphInput>, pog: map<Txid, Graph>,
      op: OpKey)
    requires CacheOk(cfg, owner, inputs, pog) && op in inputs
    ensures Cached(cfg, pog, inputs[op]) == cfg.buildGraph(inputs[op])
    ensures CacheOk(cfg, owner, inputs, Remember(cfg, pog, inputs[op]))
  {
    assert inputs[op].(stakeTxid := inputs[op].stakeTxid) == inputs[op];
  }

  /** Looking graphs up only ever adds entries, one for each input. */
  lemma {:induction false} CacheAfterGrows(cfg: Cfg, pog: map<Txid, Graph>, inputs: map<OpKey, GraphInput>,
      ops: seq<OpKey>)
    requires forall op | op in ops :: op in inputs
    ensures forall t | t in pog ::
      t in CacheAfter(cfg, pog, inputs, ops) && CacheAfter(cfg, pog, inputs, ops)[t] == pog[t]
    ensures forall op | op in ops :: inputs[op].stakeTxid in CacheAfter(cfg, pog, inputs, ops)
    decreases |ops|
  {
    if ops != [] {
      var last := |ops| - 1;
      CacheAfterGrows(cfg, pog, inputs, ops[..last]);
      assert forall op | op in ops :: op in ops[..last] || op == ops[last];
    }
  }

  lemma {:induction false} CacheAfterOk(cfg: Cfg, owner: map<Txid, OpKey>, pog: map<Txid, Graph>,
      inputs: map<OpKey, GraphInput>, ops: seq<OpKey>)
    requires CacheOk(cfg, owner, inputs, pog) && forall op | op in ops :: op in inputs
    ensures CacheOk(cfg, owner, inputs, CacheAfter(cfg, pog, inputs, ops))
    decreases |ops|
  {
    if ops != [] {
      var last := |ops| - 1;
      CacheAfterOk(cfg, owner, pog, inputs, ops[..last]);
      CachedIsRebuilt(cfg, owner, inputs, CacheAfter(cfg, pog, inputs, ops[..last]), ops[last]);
    }
  }

  lemma {:induction false} SigningDutiesCacheOk(cfg: Cfg, owner: map<Txid, OpKey>, r: Request, pog: map<Txid, Graph>,
      ops: seq<OpKey>)
    requires CacheOk(cfg, owner, r.inputs, pog) && forall op | op in ops :: op in r.claimTxids
    ensures CacheOk(cfg, owner, r.inputs, SigningDuties(cfg, r, pog, ops).0)
    decreases |ops|
  {
    if ops != [] {
      var last := |ops| - 1;
      SigningDutiesCacheOk(cfg, owner, r, pog, ops[..last]);
      var (cache, duties) := SigningDuties(cfg, r, pog, ops[..last]);
      var claim := r.claimTxids[ops[last]];
      assert ops[last] in Owners(r.claimTxids, claim);
      var o := LastOwner(r.claimTxids, claim);
      if duties.Some? && o in r.inputs {
        CachedIsRebuilt(cfg, owner, r.inputs, cache, o);
      }
    }
  }

  lemma WithInputCacheOk(cfg: Cfg, owner: map<Txid, OpKey>, inputs: map<OpKey, GraphInput>, pog: map<Txid, Graph>,
      ev: Event)
    requires CacheOk(cfg, owner, inputs, pog) && ev.DepositSetup? && OwnStake(owner, ev)
    ensures CacheOk(cfg, owner, WithInput(inputs, ev), pog)
  {
    var inputs' := WithInput(inputs, ev);
    forall t | t in pog
      ensures owner[t] in inputs' && pog[t] == cfg.buildGraph(inputs'[owner[t]].(stakeTxid := t))
    {
      assert inputs'[owner[t]].(stakeTxid := t) == inputs[owner[t]].(stakeTxid := t);
    }
  }

  lemma SetupKeepsCache(cfg: Cfg, owner: map<Txid, OpKey>, r: Request, pog: map<Txid, Graph>, ev: Event)
    requires CacheOk(cfg, owner, r.inputs, pog) && ev.DepositSetup? && OwnStake(owner, ev)
    ensures var (r', pog', _) := Setup(cfg, r, pog, ev); CacheOk(cfg, owner, r'.inputs, pog')
  {
    WithInputCacheOk(cfg, owner, r.inputs, pog, ev);
    var inputs := WithInput(r.inputs, ev);
    CacheAfterOk(cfg, owner, pog, inputs, Sorted(inputs.Keys));
  }

  lemma NoncesKeepCache(cfg: Cfg, owner: map<Txid, OpKey>, r: Request, pog: map<Txid, Graph>, ev: Event)
    requires CacheOk(cfg, owner, r.inputs, pog) && ev.GraphNonces?
    ensures var (r', pog', _) := AddNonces(cfg, r, pog, ev); CacheOk(cfg, owner, r'.inputs, pog')
  {
    hide SigningDuties, SessionsFull, CacheOk;
    if ev.claim in r.graphNonces {
      var r2 := WithAggNonces(WithNonces(r, ev));
      SigningDutiesCacheOk(cfg, owner, r2, pog, Sorted(r2.claimTxids.Keys));
    }
  }

  lemma OnlyMessagesKeepRequested(cfg: Cfg, m: Machine, ev: Event)
    requires !IsMessage(ev)
    ensures var m' := Step(cfg, m, ev).0; m'.state.Requested? ==> m'.state == m.state && m'.pog == m.pog
  {
  }

  lemma PartialsKeepInputs(cfg: Cfg, r: Request, pog: map<Txid, Graph>, ev: Event)
    requires ev.GraphSigs?
    ensures AddPartials(cfg, r, pog, ev).0.inputs == r.inputs
  {
    hide CanAggregate, ByClaim, SessionsFull, Sorted, VerifyPartials;
  }

  /** Only setups and graph nonces touch the inputs or the cache of a Requested contract. */
  lemma OtherMessagesKeepInputs(cfg: Cfg, m: Machine, ev: Event)
    requires IsMessage(ev) && !ev.DepositSetup? && !ev.GraphNonces?
    ensures var m' := ProcessMessage(cfg, m, ev).0;
            m'.state.Requested? ==> m.state.Requested? && m'.state.r.inputs == m.state.r.inputs && m'.pog == m.pog
  {
    hide AddPartials, Sum;
    if m.state.Requested? && ev.GraphSigs? { PartialsKeepInputs(cfg, m.state.r, m.pog, ev); }
  }

  /** Every step keeps the cache faithful, even when operators change the stake txid they announce. */
  lemma StepKeepsCache(cfg: Cfg, owner: map<Txid, OpKey>, m: Machine, ev: Event)
    requires MachineCacheOk(cfg, owner, m) && OwnStake(owner, ev)
    ensures MachineCacheOk(cfg, owner, Step(cfg, m, ev).0)
  {
    if !IsMessage(ev) {
      OnlyMessagesKeepRequested(cfg, m, ev);
    } else if ev.DepositSetup? {
      if m.state.Requested? { SetupKeepsCache(cfg, owner, m.state.r, m.pog, ev); }
    } else if ev.GraphNonces? {
      if m.state.Requested? { NoncesKeepCache(cfg, owner, m.state.r, m.pog, ev); }
    } else {
      OtherMessagesKeepInputs(cfg, m, ev);
    }
  }

  function Run(cfg: Cfg, m: Machine, evs: seq<Event>): Machine {
    if evs == [] then m else Step(cfg, Run(cfg, m, evs[..|evs| - 1]), evs[|evs| - 1]).0
  }

  lemma RunOneMore(cfg: Cfg, m: Machine, evs: seq<Event>, ev: Event)
    ensures Run(cfg, m, evs + [ev]) == Step(cfg, Run(cfg, m, evs), ev).0
  {
    hide Step;
    var all := evs + [ev];
    assert all[..|all| - 1] == evs;
  }

  /** In every Requested state a run can reach, the graph used for a stored input is the rebuilt one. */
  lemma {:induction false} CacheAgreesWithRebuilding(cfg: Cfg, owner: map<Txid, OpKey>, height: Height,
      deadline: Height, evs: seq<Event>)
    requires forall ev | ev in evs :: OwnStake(owner, ev)
    ensures var m := Run(cfg, InitialState(cfg, height, deadline), evs);
            && MachineCacheOk(cfg, owner, m)
            && (m.state.Requested? ==>
                  forall op | op in m.state.r.inputs ::
                    Cached(cfg, m.pog, m.state.r.inputs[op]) == cfg.buildGraph(m.state.r.inputs[op]))
    decreases |evs|
  {
    var m0 := InitialState(cfg, height, deadline);
    var m := Run(cfg, m0, evs);
    if evs != [] {
      var front := evs[..|evs| - 1];
      CacheAgreesWithRebuilding(cfg, owner, height, deadline, front);
      StepKeepsCache(cfg, owner, Run(cfg, m0, front), evs[|evs| - 1]);
    }
    if m.state.Requested? {
      forall op | op in m.state.r.inputs
        ensures Cached(cfg, m.pog, m.state.r.inputs[op]) == cfg.buildGraph(m.state.r.inputs[op])
      {
        CachedIsRebuilt(cfg, owner, m.state.r.inputs, m.pog, op);
      }
    }
  }

  // ---------- exactly when the cache is safe ----------

  /** Filing graphs by stake txid alone loses nothing: inputs sharing a stake txid build the same graph. */
  ghost predicate StakeDeterminesGraph(cfg: Cfg, inputs: map<OpKey, GraphInput>) {
    forall a, b | a in inputs && b in inputs && inputs[a].stakeTxid == inputs[b].stakeTxid ::
      cfg.buildGraph(inputs[a]) == cfg.buildGraph(inputs[b])
  }

  lemma {:induction false} FreshCacheEntries(cfg: Cfg, inputs: map<OpKey, GraphInput>, ops: seq<OpKey>)
    requires forall op | op in ops :: op in inputs
    ensures forall t | t in CacheAfter(cfg, map[], inputs, ops) ::
              exists a :: a in ops && inputs[a].stakeTxid == t
                          && CacheAfter(cfg, map[], inputs, ops)[t] == cfg.buildGraph(inputs[a])
    decreases |ops|
  {
    if ops != [] {
      var last := |ops| - 1;
      var before := CacheAfter(cfg, map[], inputs, ops[..last]);
      var after := CacheAfter(cfg, map[], inputs, ops);
      FreshCacheEntries(cfg, inputs, ops[..last]);
      forall t | t in after
        ensures exists a :: a in ops && inputs[a].stakeTxid == t && after[t] == cfg.buildGraph(inputs[a])
      {
        if t in before {
          var a :| a in ops[..last] && inputs[a].stakeTxid == t && before[t] == cfg.buildGraph(inputs[a]);
          assert a in ops;
        } else {
          assert ops[last] in ops;
        }
      }
    }
  }

  /** From an empty cache, sequential setup yields every operator's own graph exactly when no two
      operators share a stake txid while building different graphs. */
  lemma SequentialSetupRebuildsIff(cfg: Cfg, inputs: map<OpKey, GraphInput>)
    requires !cfg.multiThread
    ensures (forall op | op in inputs :: SetupGraphs(cfg, map[], inputs)[op] == cfg.buildGraph(inputs[op]))
            <==> StakeDeterminesGraph(cfg, inputs)
  {
    var ops := Sorted(inputs.Keys);
    var cache := CacheAfter(cfg, map[], inputs, ops);
    var graphs := SetupGraphs(cfg, map[], inputs);
    FreshCacheEntries(cfg, inputs, ops);
    CacheAfterGrows(cfg, map[], inputs, ops);
    assert forall op | op in inputs :: op in ops;
    if forall op | op in inputs :: graphs[op] == cfg.buildGraph(inputs[op]) {
      forall a, b | a in inputs && b in inputs && inputs[a].stakeTxid == inputs[b].stakeTxid
        ensures cfg.buildGraph(inputs[a]) == cfg.buildGraph(inputs[b])
      {
        assert graphs[a] == cache[inputs[a].stakeTxid] == graphs[b];
      }
    }
    if StakeDeterminesGraph(cfg, inputs) {
      forall op | op in inputs ensures graphs[op] == cfg.buildGraph(inputs[op]) {
        assert inputs[op].stakeTxid in cache;
        var a :| a in ops && inputs[a].stakeTxid == inputs[op].stakeTxid
                 && cache[inputs[op].stakeTxid] == cfg.buildGraph(inputs[a]);
      }
    }
  }

  /** Concretely: two operators announce the same stake txid with different keys, and one is given the other's graph. */
  lemma SharedStakeTxidMixesGraphs(cfg: Cfg)
    requires !cfg.multiThread && cfg.buildGraph(GraphInput(7, 0, 1, 0)) != cfg.buildGraph(GraphInput(7, 0, 2, 0))
    ensures var inputs := map[0 := GraphInput(7, 0, 1, 0), 1 := GraphInput(7, 0, 2, 0)];
      exists op :: op in inputs && SetupGraphs(cfg, map[], inputs)[op] != cfg.buildGraph(inputs[op])
  {
    hide SetupGraphs;
    var inputs: map<OpKey, GraphInput> := map[0 := GraphInput(7, 0, 1, 0), 1 := GraphInput(7, 0, 2, 0)];
    assert 0 in inputs && 1 in inputs;
    assert !StakeDeterminesGraph(cfg, inputs);
    SequentialSetupRebuildsIff(cfg, inputs);
  }
}
