/** The deposit contract as the object the node runs: handlers that update their fields in place, loop by
    loop, proved to compute the transition function. */
module ContractMachine {
  import opened Collections
  import opened ContractTypes
  import opened ContractSpec

  // ---------- loop steps ----------

  ghost function Part(graphs: map<OpKey, Graph>, ops: seq<OpKey>): map<OpKey, Graph>
    requires forall op | op in ops :: op in graphs
  {
    map op | op in ops :: graphs[op]
  }

  /** The request after the first operators of the list have been registered. */
  ghost function Installed(r: Request, graphs: map<OpKey, Graph>, ops: seq<OpKey>): Request
    requires forall op | op in ops :: op in graphs
  {
    var claims := ClaimsOf(Part(graphs, ops));
    r.(summaries := r.summaries + Summaries(ByClaim(graphs, ops)),
       claimTxids := r.claimTxids + claims,
       graphNonces := r.graphNonces + NoContributions(claims.Values),
       graphPartials := r.graphPartials + NoContributions(claims.Values))
  }

  lemma SummariesStep(prior: map<Txid, Summary>, graphs: map<OpKey, Graph>, ops: seq<OpKey>, op: OpKey)
    requires op in graphs && forall o | o in ops :: o in graphs
    ensures prior + Summaries(ByClaim(graphs, ops + [op]))
         == (prior + Summaries(ByClaim(graphs, ops)))[graphs[op].summary.claimTxid := graphs[op].summary]
  {
    assert (ops + [op])[..|ops|] == ops;
  }

  lemma ClaimsStep(prior: map<OpKey, Txid>, graphs: map<OpKey, Graph>, ops: seq<OpKey>, op: OpKey)
    requires op in graphs && forall o | o in ops :: o in graphs
    ensures prior + ClaimsOf(Part(graphs, ops + [op]))
         == (prior + ClaimsOf(Part(graphs, ops)))[op := graphs[op].summary.claimTxid]
  {
  }

  lemma ClaimValuesStep(graphs: map<OpKey, Graph>, ops: seq<OpKey>, op: OpKey)
    requires op in graphs && forall o | o in ops :: o in graphs
    ensures ClaimsOf(Part(graphs, ops + [op])).Values
         == ClaimsOf(Part(graphs, ops)).Values + {graphs[op].summary.claimTxid}
  {
    var before, after := ClaimsOf(Part(graphs, ops)), ClaimsOf(Part(graphs, ops + [op]));
    forall c ensures c in after.Values <==> c in before.Values || c == graphs[op].summary.claimTxid {
      if c in after.Values {
        var o :| o in after && after[o] == c;
        assert o == op || (o in before && before[o] == c);
      }
      if c in before.Values {
        var o :| o in before && before[o] == c;
        assert o in after && after[o] == c;
      }
      assert op in after && after[op] == graphs[op].summary.claimTxid;
    }
  }

  lemma SessionsStep<V>(prior: map<Txid, map<OpKey, V>>, claims: set<Txid>, c: Txid)
    ensures prior + NoContributions(claims + {c}) == (prior + NoContributions(claims))[c := map[]]
  {
  }

  lemma AllInstalled(r: Request, graphs: map<OpKey, Graph>)
    ensures Installed(r, graphs, Sorted(graphs.Keys)) == Install(r, graphs)
  {
    assert Part(graphs, Sorted(graphs.Keys)) == graphs;
  }

  lemma NoneInstalled(r: Request, graphs: map<OpKey, Graph>)
    ensures Installed(r, graphs, []) == r
  {
    var none := ClaimsOf(Part(graphs, []));
    assert none == map[] && none.Values == {};
    assert r.summaries + Summaries(map[]) == r.summaries;
    assert r.graphNonces + NoContributions({}) == r.graphNonces;
    assert r.graphPartials + NoContributions({}) == r.graphPartials;
  }

  /** Registering one more operator: four insertions. */
  lemma InstalledStep(r: Request, graphs: map<OpKey, Graph>, ops: seq<OpKey>, op: OpKey)
    requires op in graphs && forall o | o in ops :: o in graphs
    ensures var q := Installed(r, graphs, ops); var claim := graphs[op].summary.claimTxid;
      Installed(r, graphs, ops + [op]) ==
        q.(summaries := q.summaries[claim := graphs[op].summary],
           claimTxids := q.claimTxids[op := claim],
           graphNonces := q.graphNonces[claim := map[]],
           graphPartials := q.graphPartials[claim := map[]])
  {
    hide Part, ByClaim, NoContributions, Summaries, ClaimsOf;
    var claim := graphs[op].summary.claimTxid;
    var claims := ClaimsOf(Part(graphs, ops)).Values;
    SummariesStep(r.summaries, graphs, ops, op);
    ClaimsStep(r.claimTxids, graphs, ops, op);
    ClaimValuesStep(graphs, ops, op);
    SessionsStep(r.graphNonces, claims, claim);
    SessionsStep(r.graphPartials, claims, claim);
  }

  // ---------- loops over the maps of a request ----------

  method RegisterGraphs(r: Request, graphs: map<OpKey, Graph>) returns (r': Request)
    ensures r' == Install(r, graphs)
  {
    hide Install, Sorted, Installed;
    r' := r;
    var ops := Sorted(graphs.Keys);
    NoneInstalled(r, graphs);
    for i := 0 to |ops|
      invariant forall o | o in ops[..i] :: o in graphs
      invariant r' == Installed(r, graphs, ops[..i])
    {
      var op := ops[i];
      assert op in ops;
      var summary := graphs[op].summary;
      InstalledStep(r, graphs, ops[..i], op);
      assert ops[..i + 1] == ops[..i] + [op];
      r' := r'.(summaries := r'.summaries[summary.claimTxid := summary],
                claimTxids := r'.claimTxids[op := summary.claimTxid],
                graphNonces := r'.graphNonces[summary.claimTxid := map[]],
                graphPartials := r'.graphPartials[summary.claimTxid := map[]]);
    }
    assert ops[..|ops|] == ops;
    AllInstalled(r, graphs);
  }

  /** Whether every claim's session has contributions from `n` operators. */
  method HaveAll<V>(claimTxids: map<OpKey, Txid>, sessions: map<Txid, map<OpKey, V>>, n: nat) returns (full: bool)
    ensures full <==> SessionsFull(claimTxids, sessions, n)
  {
    var ops := Sorted(claimTxids.Keys);
    for i := 0 to |ops|
      invariant forall op | op in ops[..i] ::
        op in claimTxids && claimTxids[op] in sessions && |sessions[claimTxids[op]]| == n
    {
      var op := ops[i];
      assert op in ops;
      if claimTxids[op] !in sessions || |sessions[claimTxids[op]]| != n {
        return false;
      }
      assert ops[..i + 1] == ops[..i] + [op];
    }
    assert ops[..|ops|] == ops;
    return true;
  }

  /** The first operator, in key order, whose claim this is. */
  method FindOwner(claimTxids: map<OpKey, Txid>, claim: Txid) returns (owner: Option<OpKey>)
    ensures owner == if Owners(claimTxids, claim) == {} then None else Some(MinOf(Owners(claimTxids, claim)))
  {
    var ops := Sorted(claimTxids.Keys);
    for i := 0 to |ops|
      invariant forall op | op in ops[..i] :: op !in Owners(claimTxids, claim)
    {
      assert ops[i] in ops;
      if claimTxids[ops[i]] == claim {
        FirstIsLeast(claimTxids, ops, claim, i);
        return Some(ops[i]);
      }
      assert ops[..i + 1] == ops[..i] + [ops[i]];
    }
    assert ops[..|ops|] == ops;
    assert forall op | op in Owners(claimTxids, claim) :: op in ops;
    return None;
  }

  lemma FirstIsLeast(claimTxids: map<OpKey, Txid>, ops: seq<OpKey>, claim: Txid, i: nat)
    requires Lists(ops, claimTxids.Keys) && i < |ops| && ops[i] in Owners(claimTxids, claim)
    requires forall op | op in ops[..i] :: op !in Owners(claimTxids, claim)
    ensures MinOf(Owners(claimTxids, claim)) == ops[i]
  {
    var least := MinOf(Owners(claimTxids, claim));
    assert least in ops;
    var j :| 0 <= j < |ops| && ops[j] == least;
    assert forall k | 0 <= k < i :: ops[k] in ops[..i];
    if i < j { assert Before(i, j); }
  }

  /** Contributions in table order, skipping missing ones. */
  method CollectInTableOrder(ops: seq<Operator>, contributions: map<OpKey, nat>) returns (q: seq<nat>)
    ensures q == InTableOrder(ops, contributions)
  {
    q := [];
    for i := 0 to |ops|
      invariant q + InTableOrder(ops[i..], contributions) == InTableOrder(ops, contributions)
    {
      assert ops[i..][1..] == ops[i + 1..];
      if ops[i].p2pKey in contributions {
        q := q + [contributions[ops[i].p2pKey]];
      }
    }
  }

  lemma SumOfListing<V>(m: map<nat, V>, keys: seq<nat>, values: seq<V>)
    requires keys == Sorted(m.Keys) && |values| == |keys| && forall i | 0 <= i < |keys| :: values[i] == m[keys[i]]
    ensures multiset(values) == Sum(m)
  {
    hide Sorted;
    assert values == Images(keys, m);
  }

  /** Adds up the contributions in key order. */
  method SumInKeyOrder<V>(m: map<nat, V>) returns (total: multiset<V>)
    ensures total == Sum(m)
  {
    var keys := Sorted(m.Keys);
    total := multiset{};
    ghost var values := [];
    for i := 0 to |keys|
      invariant |values| == i && forall j | 0 <= j < i :: values[j] == m[keys[j]]
      invariant total == multiset(values)
    {
      assert keys[i] in keys;
      total := total + multiset{m[keys[i]]};
      values := values + [m[keys[i]]];
    }
    SumOfListing(m, keys, values);
  }

  method AggregateAllNonces(graphNonces: map<Txid, map<OpKey, Nonces>>) returns (agg: map<Txid, multiset<Nonces>>)
    ensures agg == AggregateNonces(graphNonces)
  {
    hide Sum;
    agg := map[];
    var claims := Sorted(graphNonces.Keys);
    for i := 0 to |claims|
      invariant forall c :: c in agg <==> c in claims[..i]
      invariant forall c | c in claims[..i] :: c in graphNonces && c in agg && agg[c] == Sum(graphNonces[c])
    {
      assert claims[i] in claims;
      var total := SumInKeyOrder(graphNonces[claims[i]]);
      agg := agg[claims[i] := total];
      assert claims[..i + 1] == claims[..i] + [claims[i]];
    }
    assert claims[..|claims|] == claims;
  }

  // ---------- the machine ----------

  class ContractSM {
    const cfg: Cfg
    var blockHeight: Height
    var state: ContractState
    var pog: map<Txid, Graph>

    ghost function Value(): Machine
      reads this
    {
      Machine(blockHeight, state, pog)
    }

    constructor (cfg: Cfg, height: Height, abortDeadline: Height)
      ensures this.cfg == cfg && Value() == InitialState(cfg, height, abortDeadline)
    {
      this.cfg := cfg;
      blockHeight := height;
      state := Requested(Request(cfg.depositRequestTxid, abortDeadline,
                                 map[], map[], map[], map[], map[], map[], map[], map[], map[]));
      pog := map[];
    }

    /** The cached graph, built and remembered on first use. */
    method RetrieveGraph(input: GraphInput) returns (graph: Graph)
      modifies this`pog
      ensures graph == Cached(cfg, old(pog), input) && pog == Remember(cfg, old(pog), input)
    {
      if input.stakeTxid in pog {
        graph := pog[input.stakeTxid];
        assert pog == pog[input.stakeTxid := graph];
      } else {
        graph := cfg.buildGraph(input);
        pog := pog[input.stakeTxid := graph];
      }
    }

    /** Every operator's graph, one after the other through the cache. */
    method GraphsThroughCache(inputs: map<OpKey, GraphInput>) returns (graphs: map<OpKey, Graph>)
      modifies this`pog
      ensures pog == CacheAfter(cfg, old(pog), inputs, Sorted(inputs.Keys))
      ensures graphs == CachedGraphs(cfg, pog, inputs)
    {
      graphs := map[];
      var ops := Sorted(inputs.Keys);
      for i := 0 to |ops|
        invariant pog == CacheAfter(cfg, old(pog), inputs, ops[..i])
        invariant forall op :: op in graphs <==> op in ops[..i]
        invariant forall op | op in graphs ::
          op in inputs && inputs[op].stakeTxid in pog && graphs[op] == pog[inputs[op].stakeTxid]
      {
        var op := ops[i];
        assert op in ops;
        var graph := RetrieveGraph(inputs[op]);
        graphs := graphs[op := graph];
        assert ops[..i + 1] == ops[..i] + [op];
        assert ops[..i + 1][..i] == ops[..i];
      }
      assert ops[..|ops|] == ops;
      assert forall op :: op in graphs <==> op in inputs;
    }

    /** Every operator's graph, each built on its own thread. */
    method GraphsOnThreads(inputs: map<OpKey, GraphInput>) returns (graphs: map<OpKey, Graph>)
      ensures graphs == CachedGraphs(cfg, map[], inputs)
    {
      graphs := map[];
      var ops := Sorted(inputs.Keys);
      for i := 0 to |ops|
        invariant forall op :: op in graphs <==> op in ops[..i]
        invariant forall op | op in graphs :: op in inputs && graphs[op] == cfg.buildGraph(inputs[op])
      {
        assert ops[i] in ops;
        graphs := graphs[ops[i] := cfg.buildGraph(inputs[ops[i]])];
        assert ops[..i + 1] == ops[..i] + [ops[i]];
      }
      assert ops[..|ops|] == ops;
      assert forall op :: op in graphs <==> op in inputs;
    }

    method ProcessDepositSetup(ev: Event) returns (duties: seq<Duty>)
      requires ev.DepositSetup? && state.Requested?
      modifies this`state, this`pog
      ensures state.Requested?
      ensures (state.r, pog, duties) == Setup(cfg, old(state.r), old(pog), ev)
    {
      hide Install, Sorted, NonceDuties, CachedGraphs, CacheAfter;
      var r := state.r;
      if ev.op in r.inputs {
        r := r.(inputs := r.inputs[ev.op := r.inputs[ev.op].(stakeTxid := ev.stakeTxid)]);
      } else {
        r := r.(inputs := r.inputs[ev.op := GraphInput(ev.stakeTxid, ev.stakeHash, ev.wotsKeys, ev.payoutKey)]);
      }
      if |r.inputs| != cfg.table.Size() {
        state := Requested(r);
        return [];
      }
      var graphs: map<OpKey, Graph>;
      if cfg.multiThread {
        graphs := GraphsOnThreads(r.inputs);
      } else {
        graphs := GraphsThroughCache(r.inputs);
      }
      duties := AskForNonces(graphs);
      r := RegisterGraphs(r, graphs);
      state := Requested(r);
    }

    method AskForNonces(graphs: map<OpKey, Graph>) returns (duties: seq<Duty>)
      ensures duties == NonceDuties(graphs)
    {
      duties := [];
      var ops := Sorted(graphs.Keys);
      for i := 0 to |ops|
        invariant |duties| == i
        invariant forall j | 0 <= j < i ::
          ops[j] in graphs && duties[j] == PublishGraphNonces(graphs[ops[j]].summary.claimTxid, graphs[ops[j]])
      {
        assert ops[i] in ops;
        duties := duties + [PublishGraphNonces(graphs[ops[i]].summary.claimTxid, graphs[ops[i]])];
      }
    }

    /** One signing duty per claim; `None` at the first lookup that fails. */
    method AskForSignatures(r: Request) returns (duties: Option<seq<Duty>>)
      modifies this`pog
      ensures (pog, duties) == SigningDuties(cfg, r, old(pog), Sorted(r.claimTxids.Keys))
    {
      hide Owners, LastOwner, Cached, Remember;
      var ops := Sorted(r.claimTxids.Keys);
      var done: seq<Duty> := [];
      for i := 0 to |ops|
        invariant (pog, Some(done)) == SigningDuties(cfg, r, old(pog), ops[..i])
      {
        var op := ops[i];
        assert op in ops;
        var claim := r.claimTxids[op];
        OwnsItsClaim(r.claimTxids, op);
        var owner := LastOwner(r.claimTxids, claim);
        assert ops[..i + 1][..i] == ops[..i];
        if owner !in r.inputs {
          SigningFailureSticks(cfg, r, old(pog), ops, i + 1);
          return None;
        }
        var graph := RetrieveGraph(r.inputs[owner]);
        if claim !in r.aggNonces {
          SigningFailureSticks(cfg, r, old(pog), ops, i + 1);
          return None;
        }
        done := done + [SigningDuty(cfg, r, claim, graph)];
      }
      assert ops[..|ops|] == ops;
      return Some(done);
    }

    method ProcessGraphNonces(ev: Event) returns (outcome: Outcome)
      requires ev.GraphNonces? && state.Requested?
      modifies this`state, this`pog
      ensures state.Requested?
      ensures (state.r, pog, outcome) == AddNonces(cfg, old(state.r), old(pog), ev)
    {
      hide Sorted, SigningDuties, AggregateNonces, SessionsFull, Unpacks;
      var r := state.r;
      if !Unpacks(ev.nonces) || ev.claim !in r.graphNonces {
        return Rejected;
      }
      if ev.signer in r.graphNonces[ev.claim] {
        return Ok([]);
      }
      r := WithNonces(r, ev);
      state := Requested(r);
      var full := HaveAll(r.claimTxids, r.graphNonces, cfg.table.Size());
      if !full {
        return Ok([]);
      }
      var agg := AggregateAllNonces(r.graphNonces);
      r := r.(aggNonces := agg);
      state := Requested(r);
      var duties := AskForSignatures(r);
      outcome := if duties.Some? then Ok(duties.value) else Rejected;
    }

    /** All graphs by claim, from the cache where possible; the cache itself is only read. */
    method GraphsByClaim(inputs: map<OpKey, GraphInput>) returns (graphs: map<Txid, Graph>)
      ensures graphs == ByClaim(CachedGraphs(cfg, pog, inputs), Sorted(inputs.Keys))
    {
      graphs := map[];
      ghost var byOp := CachedGraphs(cfg, pog, inputs);
      var ops := Sorted(inputs.Keys);
      for i := 0 to |ops|
        invariant forall op | op in ops[..i] :: op in byOp
        invariant graphs == ByClaim(byOp, ops[..i])
      {
        assert ops[i] in ops;
        var input := inputs[ops[i]];
        var graph := if input.stakeTxid in pog then pog[input.stakeTxid] else cfg.buildGraph(input);
        assert graph == byOp[ops[i]];
        graphs := graphs[graph.summary.claimTxid := graph];
        assert ops[..i + 1][..i] == ops[..i];
      }
      assert ops[..|ops|] == ops;
    }

    /** The aggregate signature of every claim; `None` when an `expect` fails. */
    method AggregatePartials(r: Request, graphs: map<Txid, Graph>) returns (sigs: Option<map<Txid, GraphSig>>)
      ensures sigs.Some? <==> CanAggregate(cfg, r, graphs)
      ensures sigs.Some? ==> sigs.value == AggregateSigs(cfg, r, graphs)
    {
      var claims := Sorted(graphs.Keys);
      var done: map<Txid, GraphSig> := map[];
      for i := 0 to |claims|
        invariant forall c :: c in done <==> c in claims[..i]
        invariant forall c | c in claims[..i] ::
          && c in graphs && c in r.aggNonces && c in r.graphPartials && r.graphPartials[c].Keys <= cfg.table.Keys()
          && cfg.aggregates(AggregateCheck(graphs[c], r.aggNonces[c], r.graphPartials[c]))
          && c in done && done[c] == Aggregate(r.aggNonces[c], r.graphPartials[c])
      {
        var c := claims[i];
        assert c in claims;
        if || c !in r.aggNonces || c !in r.graphPartials || !(r.graphPartials[c].Keys <= cfg.table.Keys())
           || !cfg.aggregates(AggregateCheck(graphs[c], r.aggNonces[c], r.graphPartials[c])) {
          return None;
        }
        done := done[c := Aggregate(r.aggNonces[c], r.graphPartials[c])];
        assert claims[..i + 1] == claims[..i] + [c];
      }
      assert claims[..|claims|] == claims;
      return Some(done);
    }

    method ProcessGraphSignatures(ev: Event) returns (outcome: Outcome)
      requires ev.GraphSigs? && state.Requested?
      modifies this`state
      ensures state.Requested?
      ensures (state.r, outcome) == AddPartials(cfg, old(state.r), pog, ev)
    {
      hide Sorted, CachedGraphs, SessionsFull, Unpacks, CanAggregate, Owners, VerifyPartials, AggregateSigs;
      var r := state.r;
      if !Unpacks(ev.partials) || ev.claim !in r.graphPartials {
        return Rejected;
      }
      if ev.signer in r.graphPartials[ev.claim] {
        return Ok([]);
      }
      var owner := FindOwner(r.claimTxids, ev.claim);
      if owner.None? || owner.value !in r.inputs {
        return Rejected;
      }
      var verdict := VerifyPartials(cfg, r, ev, Cached(cfg, pog, r.inputs[owner.value]));
      if verdict.Some? {
        return verdict.value;
      }
      r := WithPartials(r, ev);
      state := Requested(r);
      var full := HaveAll(r.claimTxids, r.graphPartials, cfg.table.Size());
      if !full {
        return Ok([]);
      }
      var graphs := GraphsByClaim(r.inputs);
      var sigs := AggregatePartials(r, graphs);
      if sigs.None? {
        return Panic;
      }
      state := Requested(r.(graphSigs := sigs.value));
      outcome := Ok([RootNonceDuty(cfg, r.rootNonces)]);
    }

    method ProcessRootNonce(ev: Event) returns (duties: seq<Duty>)
      requires ev.RootNonce? && state.Requested?
      modifies this`state
      ensures state.Requested?
      ensures (state.r, duties) == AddRootNonce(cfg, old(state.r), ev)
    {
      hide InTableOrder;
      var r := state.r;
      if ev.signer in r.rootNonces {
        return [];
      }
      r := r.(rootNonces := r.rootNonces[ev.signer := ev.nonce]);
      state := Requested(r);
      if |r.rootNonces| != cfg.table.Size() {
        return [];
      }
      var nonces := CollectInTableOrder(cfg.table.operators, r.rootNonces);
      duties := [PublishRootSignature(cfg.depositRequestTxid, multiset(nonces))];
    }

    method ProcessRootSignature(ev: Event) returns (outcome: Outcome)
      requires ev.RootSig? && state.Requested?
      modifies this`state
      ensures state.Requested?
      ensures (state.r, outcome) == AddRootPartial(cfg, old(state.r), ev)
    {
      hide Sum, InTableOrder;
      var r := state.r;
      if ev.signer in r.rootPartials {
        return Ok([]);
      }
      var aggNonce := SumInKeyOrder(r.rootNonces);
      if ev.signer !in cfg.table.Keys() || ev.signer !in r.rootNonces {
        return Rejected;
      }
      if !cfg.verifyRoot(RootCheck(ev.signer, r.rootNonces[ev.signer], aggNonce, ev.partial)) {
        return Ok([]);
      }
      r := r.(rootPartials := r.rootPartials[ev.signer := ev.partial]);
      state := Requested(r);
      if |r.rootPartials| != cfg.table.Size() {
        return Ok([]);
      }
      var partials := CollectInTableOrder(cfg.table.operators, r.rootPartials);
      outcome := Ok([PublishDeposit(cfg.depositTxid, partials, aggNonce)]);
    }

    method NotifyNewBlock(height: Height) returns (outcome: Outcome)
      modifies this`blockHeight, this`state
      ensures (Value(), outcome) == ProcessBlock(cfg, old(Value()), height)
    {
      if blockHeight + 1 != height {
        return Rejected;
      }
      blockHeight := height;
      if state.Requested? && height >= state.r.abortDeadline {
        state := Aborted;
        return Ok([Abort]);
      }
      outcome := BlockDuty(cfg, state, height);
    }

    /** Moves every claim's input and summary out of the request; `None` when one has gone already or never was. */
    method PairClaims(r: Request) returns (paired: Option<map<Txid, (GraphInput, Summary)>>)
      ensures paired.Some? <==> CanConfirm(r)
      ensures paired.Some? ==> paired.value == PairGraphs(r)
    {
      hide Sorted, PairedSoFar, CanConfirm, PairGraphs;
      var graphs: map<Txid, (GraphInput, Summary)> := map[];
      var inputs, summaries := r.inputs, r.summaries;
      var ops := Sorted(r.claimTxids.Keys);
      NonePaired(r);
      for i := 0 to |ops|
        invariant PairedSoFar(r, ops[..i], graphs)
        invariant forall op :: op in inputs <==> op in r.inputs && op !in ops[..i]
        invariant forall op | op in inputs :: inputs[op] == r.inputs[op]
        invariant forall c :: c in summaries <==> c in r.summaries && c !in graphs
        invariant forall c | c in summaries :: summaries[c] == r.summaries[c]
      {
        var op := ops[i];
        assert op in ops;
        var claim := r.claimTxids[op];
        NoLaterOperator(ops, i);
        if op !in inputs || claim !in summaries {
          CannotPair(r, ops, i, graphs);
          return None;
        }
        PairOne(r, ops, i, graphs);
        graphs := graphs[claim := (inputs[op], summaries[claim])];
        inputs, summaries := inputs - {op}, summaries - {claim};
        assert ops[..i + 1] == ops[..i] + [op];
      }
      assert ops[..|ops|] == ops;
      AllPaired(r, ops, graphs);
      return Some(graphs);
    }

    method ProcessDepositConfirmed(tx: Tx) returns (outcome: Outcome)
      modifies this`state, this`pog
      ensures (Value(), outcome) == ProcessDepositConfirmation(cfg, old(Value()), tx)
    {
      hide CanConfirm, PairGraphs;
      if tx.txid != cfg.depositTxid || !state.Requested? {
        return Rejected;
      }
      var r := state.r;
      var graphs := PairClaims(r);
      if graphs.None? {
        return Panic;
      }
      state := Deposited(Graphs(graphs.value, r.claimTxids, r.graphSigs));
      pog := map[];
      return Ok([]);
    }

    /** Files the transaction, and moves on when it was the last one missing. */
    method ProcessAssertData(tx: Tx) returns (outcome: Outcome)
      requires state.PreAssertConfirmed?
      modifies this`state
      ensures (state, outcome) == ConfirmAssertData(cfg, old(state), tx)
    {
      var s := state;
      if tx.txid !in s.active.1.assertDataTxids {
        return Rejected;
      }
      var signed := s.signedAsserts[tx.txid := tx];
      state := PreAssertConfirmed(s.g, s.fulfiller, s.active, s.withdrawalRequestTxid, s.fulfillmentTxid,
                                  s.claimHeight, s.commitment, s.l1StartHeight, signed);
      if |signed| < NUM_ASSERT_DATA_TX {
        return Ok([]);
      }
      var duties: seq<Duty> := [];
      if s.fulfiller == cfg.table.pov {
        if s.active.1.claimTxid !in s.g.graphSigs {
          return Rejected;
        }
        duties := [PublishPostAssertData(s.active.1.assertDataTxids, s.g.graphSigs[s.active.1.claimTxid])];
      }
      state := AssertDataConfirmed(s.g, s.fulfiller, s.active, s.withdrawalRequestTxid, s.fulfillmentTxid,
        s.commitment, signed);
      return Ok(duties);
    }

    /** The filed assert-data transactions in graph order; `None` when one is missing. */
    method CollectAsserts(txids: seq<Txid>, signed: map<Txid, Tx>) returns (txs: Option<seq<Tx>>)
      ensures txs.Some? <==> AllSigned(txids, signed)
      ensures txs.Some? ==> txs.value == Images(txids, signed)
    {
      var found: seq<Tx> := [];
      for i := 0 to |txids|
        invariant |found| == i && forall j | 0 <= j < i :: txids[j] in signed && found[j] == signed[txids[j]]
      {
        if txids[i] !in signed {
          assert txids[i] in txids;
          return None;
        }
        found := found + [signed[txids[i]]];
      }
      return Some(found);
    }

    method ProcessPostAssert(tx: Tx, height: Height) returns (outcome: Outcome)
      requires state.AssertDataConfirmed?
      modifies this`state
      ensures (state, outcome) == ConfirmPostAssert(cfg, old(state), tx, height)
    {
      hide AllSigned;
      var s := state;
      if |s.signedAsserts| != NUM_ASSERT_DATA_TX || tx.txid != s.active.1.postAssertTxid {
        return Rejected;
      }
      var txs := CollectAsserts(s.active.1.assertDataTxids, s.signedAsserts);
      if txs.None? {
        return Rejected;
      }
      if |txs.value| != NUM_ASSERT_DATA_TX {
        return Panic;
      }
      var proof := cfg.parseAsserts(AssertBatch(txs.value));
      if proof.None? {
        return Rejected;
      }
      state := Asserted(s.g, s.fulfiller, s.active, s.withdrawalRequestTxid, s.fulfillmentTxid, s.commitment, height,
        proof.value);
      return Ok(if s.fulfiller == cfg.table.pov then [VerifyAssertion] else []);
    }

    /** Routes a confirmed peg-out graph transaction by the current state. */
    method ProcessPegOutGraphTx(tx: Tx, height: Height) returns (outcome: Outcome)
      modifies this`state
      ensures (state, outcome) == Confirm(cfg, old(state), tx, height)
    {
      hide ConfirmFulfillment, ConfirmClaim, ConfirmAfterClaim, ConfirmPreAssert, ConfirmAssertData, ConfirmPostAssert;
      hide ConfirmAfterAssert;
      if state.PreAssertConfirmed? {
        outcome := ProcessAssertData(tx);
        return;
      }
      if state.AssertDataConfirmed? {
        outcome := ProcessPostAssert(tx, height);
        return;
      }
      var (next, result) :=
        if state.Assigned? then ConfirmFulfillment(cfg, state, tx, height)
        else if state.Fulfilled? then ConfirmClaim(cfg, state, tx, height)
        else if state.Claimed? then ConfirmAfterClaim(cfg, state, tx)
        else if state.Challenged? then ConfirmPreAssert(cfg, state, tx)
        else if state.Asserted? then ConfirmAfterAssert(state, tx)
        else (state, Rejected);
      state, outcome := next, result;
    }

    /** The primary state-folding function: whatever the event, the fields end as the specification says. */
    method ProcessContractEvent(ev: Event) returns (outcome: Outcome)
      modifies this
      ensures (Value(), outcome) == Step(cfg, old(Value()), ev)
    {
      hide Setup, AddNonces, AddPartials, AddRootNonce, AddRootPartial, ProcessBlock, ProcessDepositConfirmation;
      hide Confirm;
      hide ProcessAssignment;
      if IsMessage(ev) && !state.Requested? {
        if (ev.DepositSetup? && state.Aborted?) || ((ev.RootNonce? || ev.RootSig?) && state.Deposited?) {
          return Ok([]);
        }
        return Rejected;
      }
      match ev
      case DepositSetup(_, _, _, _, _) =>
        var duties := ProcessDepositSetup(ev);
        outcome := Ok(duties);
      case GraphNonces(_, _, _) => outcome := ProcessGraphNonces(ev);
      case GraphSigs(_, _, _) => outcome := ProcessGraphSignatures(ev);
      case AggregatedSigs(sigs) =>
        state := Requested(state.r.(graphSigs := sigs));
        outcome := Ok([RootNonceDuty(cfg, state.r.rootNonces)]);
      case RootNonce(_, _) =>
        var duties := ProcessRootNonce(ev);
        outcome := Ok(duties);
      case RootSig(_, _) => outcome := ProcessRootSignature(ev);
      case DepositConfirmation(tx) => outcome := ProcessDepositConfirmed(tx);
      case Assignment(_, _, _) =>
        var (s, o) := ProcessAssignment(cfg, state, ev);
        state, outcome := s, o;
      case PegOutGraphConfirmation(tx, height) => outcome := ProcessPegOutGraphTx(tx, height);
      case Block(height) => outcome := NotifyNewBlock(height);
      case ClaimFailure => outcome := if state.Claimed? then Ok([PublishChallenge]) else Rejected;
      case AssertionFailure => outcome := if state.Asserted? then Ok([PublishDisprove]) else Rejected;
    }
  }

  // ---------- pairing claims ----------

  /** The first operators' claims are distinct and paired with their inputs and summaries. */
  ghost predicate PairedSoFar(r: Request, ops: seq<OpKey>, graphs: map<Txid, (GraphInput, Summary)>) {
    && (forall op | op in ops ::
          && op in r.claimTxids && op in r.inputs && r.claimTxids[op] in r.summaries
          && r.claimTxids[op] in graphs && graphs[r.claimTxids[op]] == (r.inputs[op], r.summaries[r.claimTxids[op]]))
    && (forall c | c in graphs :: exists op :: op in ops && op in r.claimTxids && r.claimTxids[op] == c)
    && (forall a, b | a in ops && b in ops && a != b ::
      a in r.claimTxids && b in r.claimTxids && r.claimTxids[a] != r.claimTxids[b])
  }

  lemma NonePaired(r: Request)
    ensures PairedSoFar(r, [], map[])
  {
  }

  lemma CannotPair(r: Request, ops: seq<OpKey>, i: nat, graphs: map<Txid, (GraphInput, Summary)>)
    requires Lists(ops, r.claimTxids.Keys) && i < |ops| && ops[i] in r.claimTxids && ops[i] !in ops[..i]
    requires PairedSoFar(r, ops[..i], graphs)
    requires ops[i] !in r.inputs || r.claimTxids[ops[i]] !in r.summaries || r.claimTxids[ops[i]] in graphs
    ensures !CanConfirm(r)
  {
    if r.claimTxids[ops[i]] in graphs {
      var op :| op in ops[..i] && op in r.claimTxids && r.claimTxids[op] == r.claimTxids[ops[i]];
      assert op != ops[i];
    }
  }

  lemma PairOne(r: Request, ops: seq<OpKey>, i: nat, graphs: map<Txid, (GraphInput, Summary)>)
    requires i < |ops| && ops[i] in r.claimTxids && ops[i] !in ops[..i] && PairedSoFar(r, ops[..i], graphs)
    requires ops[i] in r.inputs && r.claimTxids[ops[i]] in r.summaries && r.claimTxids[ops[i]] !in graphs
    ensures var claim := r.claimTxids[ops[i]];
      PairedSoFar(r, ops[..i + 1], graphs[claim := (r.inputs[ops[i]], r.summaries[claim])])
  {
    var now, before := ops[..i + 1], ops[..i];
    assert now == before + [ops[i]];
    assert forall op :: op in now <==> op in before || op == ops[i];
  }

  lemma AllPaired(r: Request, ops: seq<OpKey>, graphs: map<Txid, (GraphInput, Summary)>)
    requires Lists(ops, r.claimTxids.Keys) && PairedSoFar(r, ops, graphs)
    ensures CanConfirm(r) && graphs == PairGraphs(r)
  {
    assert forall op | op in r.claimTxids :: op in ops;
    assert CanConfirm(r);
    assert graphs.Keys == PairGraphs(r).Keys;
  }

  lemma NoLaterOperator(ops: seq<OpKey>, i: nat)
    requires i < |ops| && Increasing(ops)
    ensures ops[i] !in ops[..i]
  {
    forall j: nat | j < i ensures ops[..i][j] != ops[i] {
      assert Before(j, i);
    }
  }

  lemma OwnsItsClaim(claimTxids: map<OpKey, Txid>, op: OpKey)
    requires op in claimTxids
    ensures op in Owners(claimTxids, claimTxids[op]) && Owners(claimTxids, claimTxids[op]) != {}
  {
  }

  /** A failed lookup ends the loop: later claims change neither the cache nor the failure. */
  lemma {:induction false} SigningFailureSticks(cfg: Cfg, r: Request, pog: map<Txid, Graph>, ops: seq<OpKey>, n: nat)
    requires n <= |ops| && forall op | op in ops :: op in r.claimTxids
    requires SigningDuties(cfg, r, pog, ops[..n]).1.None?
    ensures SigningDuties(cfg, r, pog, ops) == SigningDuties(cfg, r, pog, ops[..n])
    decreases |ops|
  {
    hide Owners, LastOwner;
    if n == |ops| {
      assert ops[..n] == ops;
    } else {
      var last := |ops| - 1;
      assert ops[..last][..n] == ops[..n];
      SigningFailureSticks(cfg, r, pog, ops[..last], n);
    }
  }
}
