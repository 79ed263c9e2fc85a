/** Every step of an admissible run keeps the invariant, never panics and rejects without a trace. */
module ContractSafety {
  import opened Collections
  import opened ContractTypes
  import opened ContractSpec
  import opened ContractCache
  import opened ContractInvariant

  lemma AskedAppend(a: seq<Duty>, b: seq<Duty>)
    ensures Asked(a + b) <==> Asked(a) || Asked(b)
    ensures Signed(a + b) <==> Signed(a) || Signed(b)
  {
    assert forall d :: d in a + b <==> d in a || d in b;
  }

  /** Distinct operators have distinct claims. */
  lemma ClaimsDistinct(cfg: Cfg, env: Env, inputs: map<OpKey, GraphInput>, a: OpKey, b: OpKey)
    requires CfgOk(cfg, env) && InputsOk(cfg, env, inputs) && a in inputs && b in inputs
    requires ClaimOf(cfg, inputs[a]) == ClaimOf(cfg, inputs[b])
    ensures a == b
  {
    assert Owns(env.owner, a, env.stake[a]) && Owns(env.owner, b, env.stake[b]);
  }

  // ---------- deposit setup ----------

  lemma SetupGraphsRebuilt(cfg: Cfg, owner: map<Txid, OpKey>, pog: map<Txid, Graph>, inputs: map<OpKey, GraphInput>)
    requires CacheOk(cfg, owner, inputs, pog)
    ensures SetupGraphs(cfg, pog, inputs) == RebuiltGraphs(cfg, inputs)
    ensures CacheOk(cfg, owner, inputs, SetupCache(cfg, pog, inputs))
  {
    CacheAfterOk(cfg, owner, pog, inputs, Sorted(inputs.Keys));
    CachedGraphsRebuilt(cfg, owner, SetupCache(cfg, pog, inputs), inputs);
  }

  function RebuiltGraphs(cfg: Cfg, inputs: map<OpKey, GraphInput>): map<OpKey, Graph> {
    map op | op in inputs :: cfg.buildGraph(inputs[op])
  }

  lemma CachedGraphsRebuilt(cfg: Cfg, owner: map<Txid, OpKey>, pog: map<Txid, Graph>, inputs: map<OpKey, GraphInput>)
    requires CacheOk(cfg, owner, inputs, pog)
    ensures CachedGraphs(cfg, pog, inputs) == RebuiltGraphs(cfg, inputs)
  {
    forall op | op in inputs ensures Cached(cfg, pog, inputs[op]) == cfg.buildGraph(inputs[op]) {
      CachedIsRebuilt(cfg, owner, inputs, pog, op);
    }
  }

  /** Filing graphs by claim keeps, under each claim, a graph with that claim. */
  lemma {:induction false} ByClaimEntries(graphs: map<OpKey, Graph>, ops: seq<OpKey>)
    requires forall op | op in ops :: op in graphs
    ensures forall op | op in ops :: graphs[op].summary.claimTxid in ByClaim(graphs, ops)
    ensures forall c | c in ByClaim(graphs, ops) ::
              exists op :: op in ops && graphs[op] == ByClaim(graphs, ops)[c] && graphs[op].summary.claimTxid == c
    decreases |ops|
  {
    if ops != [] {
      var last := |ops| - 1;
      ByClaimEntries(graphs, ops[..last]);
      assert ops == ops[..last] + [ops[last]];
    }
  }

  /** With distinct claims nothing is overwritten: each claim leads to its own graph. */
  lemma ByClaimExact(cfg: Cfg, env: Env, inputs: map<OpKey, GraphInput>)
    requires CfgOk(cfg, env) && InputsOk(cfg, env, inputs)
    ensures var graphs := ByClaim(RebuiltGraphs(cfg, inputs), Sorted(inputs.Keys));
      && (forall op | op in inputs ::
        ClaimOf(cfg, inputs[op]) in graphs && graphs[ClaimOf(cfg, inputs[op])] == cfg.buildGraph(inputs[op]))
      && (forall c | c in graphs :: exists op :: op in inputs && ClaimOf(cfg, inputs[op]) == c)
  {
    var ops := Sorted(inputs.Keys);
    var rebuilt := RebuiltGraphs(cfg, inputs);
    var graphs := ByClaim(rebuilt, ops);
    ByClaimEntries(rebuilt, ops);
    forall op | op in inputs
      ensures ClaimOf(cfg, inputs[op]) in graphs && graphs[ClaimOf(cfg, inputs[op])] == cfg.buildGraph(inputs[op])
    {
      assert op in ops && rebuilt[op].summary.claimTxid == ClaimOf(cfg, inputs[op]);
      var o :| o in ops && rebuilt[o] == graphs[ClaimOf(cfg, inputs[op])]
        && rebuilt[o].summary.claimTxid == ClaimOf(cfg, inputs[op]);
      ClaimsDistinct(cfg, env, inputs, o, op);
    }
    forall c | c in graphs ensures exists op :: op in inputs && ClaimOf(cfg, inputs[op]) == c {
      var o :| o in ops && rebuilt[o] == graphs[c] && rebuilt[o].summary.claimTxid == c;
      assert o in inputs && ClaimOf(cfg, inputs[o]) == c;
    }
  }

  lemma {:induction false} MergedSessions<V>(prior: map<Txid, map<OpKey, V>>, claims: set<Txid>, c: Txid)
    ensures var m := prior + NoContributions(claims);
      && (c in m <==> c in prior || c in claims)
      && (c in claims ==> m[c] == map[])
  {
  }

  lemma ClaimInstalled(r: Request, graphs: map<OpKey, Graph>, op: OpKey)
    requires op in graphs
    ensures var r' := Install(r, graphs); var claim := graphs[op].summary.claimTxid;
      && op in r'.claimTxids && r'.claimTxids[op] == claim
      && claim in r'.graphNonces && claim in r'.graphPartials
  {
    hide ByClaim, Sorted, Summaries, NoContributions;
    var claims := ClaimsOf(graphs);
    assert claims[op] in claims.Values;
    MergedSessions(r.graphNonces, claims.Values, claims[op]);
    MergedSessions(r.graphPartials, claims.Values, claims[op]);
  }

  lemma SummaryInstalled(r: Request, graphs: map<OpKey, Graph>, claim: Txid)
    requires claim in ByClaim(graphs, Sorted(graphs.Keys))
    ensures claim in Install(r, graphs).summaries
    ensures Install(r, graphs).summaries[claim] == ByClaim(graphs, Sorted(graphs.Keys))[claim].summary
  {
    hide ByClaim, Sorted, ClaimsOf, NoContributions;
  }

  /** After installing, an operator's claim is indexed and has its summary and two empty sessions. */
  lemma OperatorInstalled(cfg: Cfg, env: Env, r: Request, op: OpKey)
    requires CfgOk(cfg, env) && InputsOk(cfg, env, r.inputs) && op in r.inputs
    ensures ClaimOpen(cfg, Install(r, RebuiltGraphs(cfg, r.inputs)), op)
  {
    hide Install, CfgOk, InputsOk, Sorted;
    var graphs := RebuiltGraphs(cfg, r.inputs);
    assert graphs.Keys == r.inputs.Keys;
    InstallFrame(r, graphs);
    ByClaimExact(cfg, env, r.inputs);
    ClaimInstalled(r, graphs, op);
    SummaryInstalled(r, graphs, ClaimOf(cfg, r.inputs[op]));
  }

  /** After installing, every session belongs to some operator's claim and is empty. */
  lemma SessionInstalled(cfg: Cfg, r: Request, c: Txid)
    requires Fresh(r) || Complete(cfg, r)
    ensures var r' := Install(r, RebuiltGraphs(cfg, r.inputs));
      && (c in r'.graphNonces ==> HasOwner(cfg, r, c) && r'.graphNonces[c] == map[])
      && (c in r'.graphPartials ==> HasOwner(cfg, r, c) && r'.graphPartials[c] == map[])
  {
    hide ByClaim, Sorted, ClaimOpen, NoContributions;
    var r' := Install(r, RebuiltGraphs(cfg, r.inputs));
    var claims := ClaimsOf(RebuiltGraphs(cfg, r.inputs));
    MergedSessions(r.graphNonces, claims.Values, c);
    MergedSessions(r.graphPartials, claims.Values, c);
    if c in r'.graphNonces || c in r'.graphPartials {
      OwnedOrNew(cfg, r, c);
    }
  }

  lemma OwnedOrNew(cfg: Cfg, r: Request, c: Txid)
    ensures HasOwner(cfg, r, c) <==> c in ClaimsOf(RebuiltGraphs(cfg, r.inputs)).Values
  {
    var claims := ClaimsOf(RebuiltGraphs(cfg, r.inputs));
    if HasOwner(cfg, r, c) {
      var op :| op in r.inputs && ClaimOf(cfg, r.inputs[op]) == c;
      assert claims[op] == c;
    }
    if c in claims.Values {
      var op :| op in claims && claims[op] == c;
      assert op in r.inputs && ClaimOf(cfg, r.inputs[op]) == c;
    }
  }

  /** Installing touches neither inputs, aggregates, signatures nor root data. */
  lemma InstallFrame(r: Request, graphs: map<OpKey, Graph>)
    ensures var r' := Install(r, graphs);
      && r'.inputs == r.inputs && r'.aggNonces == r.aggNonces && r'.graphSigs == r.graphSigs
      && r'.rootNonces == r.rootNonces && r'.rootPartials == r.rootPartials
      && r'.claimTxids == r.claimTxids + ClaimsOf(graphs)
  {
    hide ByClaim, Sorted;
  }

  /** Installing the rebuilt graphs makes the state complete. */
  lemma InstallCompletes(cfg: Cfg, env: Env, r: Request)
    requires CfgOk(cfg, env) && InputsOk(cfg, env, r.inputs) && r.inputs.Keys == cfg.table.Keys()
    requires Fresh(r) || Complete(cfg, r)
    ensures Complete(cfg, Install(r, RebuiltGraphs(cfg, r.inputs)))
  {
    hide Install, CfgOk, ClaimOpen, Fresh;
    var r' := Install(r, RebuiltGraphs(cfg, r.inputs));
    InstallFrame(r, RebuiltGraphs(cfg, r.inputs));
    assert r'.claimTxids.Keys == cfg.table.Keys() by {
      if Fresh(r) { FreshHasNoClaims(r); }
    }
    forall op | op in r'.inputs ensures ClaimOpen(cfg, r', op) {
      OperatorInstalled(cfg, env, r, op);
    }
    forall c | c in r'.graphNonces || c in r'.graphPartials ensures HasOwner(cfg, r', c) {
      SessionInstalled(cfg, r, c);
    }
  }

  lemma FreshHasNoClaims(r: Request)
    requires Fresh(r)
    ensures r.claimTxids == map[]
  {
  }

  lemma ReinstallKeepsClaims(cfg: Cfg, r: Request)
    requires Complete(cfg, r)
    ensures Install(r, RebuiltGraphs(cfg, r.inputs)).claimTxids == r.claimTxids
  {
    hide Install;
    InstallFrame(r, RebuiltGraphs(cfg, r.inputs));
    forall op | op in r.claimTxids ensures r.claimTxids[op] == ClaimsOf(RebuiltGraphs(cfg, r.inputs))[op] {
      assert ClaimOpen(cfg, r, op);
    }
  }

  /** Reopening the sessions forgets contributions but keeps the aggregates already computed. */
  lemma InstallReopens(cfg: Cfg, env: Env, r: Request)
    requires (Fresh(r) || Complete(cfg, r)) && SessionsOk(cfg, env, r)
    ensures SessionsOk(cfg, env, Install(r, RebuiltGraphs(cfg, r.inputs)))
  {
    hide Install, RebuiltGraphs, ClaimOpen, Fresh, Complete;
    var r' := Install(r, RebuiltGraphs(cfg, r.inputs));
    InstallFrame(r, RebuiltGraphs(cfg, r.inputs));
    forall c | c in r'.graphNonces ensures NoncesOk(cfg, env, c, r'.graphNonces[c]) {
      SessionInstalled(cfg, r, c);
    }
    forall c | c in r'.graphPartials ensures PartialsOk(cfg, env, r', c, r'.graphPartials[c]) {
      SessionInstalled(cfg, r, c);
    }
  }

  /** A repeated setup stores the input it already had. */
  lemma RepeatedSetup(cfg: Cfg, env: Env, inputs: map<OpKey, GraphInput>, ev: Event)
    requires InputsOk(cfg, env, inputs) && ev.DepositSetup? && ev.op in inputs && ev.op in env.stake
    requires ev.stakeTxid == env.stake[ev.op]
    ensures WithInput(inputs, ev) == inputs
  {
    assert inputs[ev.op].(stakeTxid := ev.stakeTxid) == inputs[ev.op];
  }

  /** Storing an input is harmless: nothing else is known yet, or the input was known already. */
  lemma InputStored(cfg: Cfg, env: Env, r: Request, duties: seq<Duty>, ev: Event)
    requires InputsOk(cfg, env, r.inputs) && (Fresh(r) || Complete(cfg, r)) && SessionsOk(cfg, env, r)
    requires RootOk(cfg, r, duties)
    requires ev.DepositSetup? && ev.op in cfg.table.Keys() && ev.op in env.stake && ev.stakeTxid == env.stake[ev.op]
    ensures var r' := r.(inputs := WithInput(r.inputs, ev));
      && InputsOk(cfg, env, r'.inputs) && (Fresh(r') || Complete(cfg, r')) && SessionsOk(cfg, env, r')
      && RootOk(cfg, r', duties) && (Complete(cfg, r) ==> r' == r)
  {
    if Complete(cfg, r) {
      RepeatedSetup(cfg, env, r.inputs, ev);
      assert r.(inputs := WithInput(r.inputs, ev)) == r;
    } else {
      assert Fresh(r.(inputs := WithInput(r.inputs, ev)));
    }
  }

  lemma InstallKeepsRoot(cfg: Cfg, env: Env, r: Request, duties: seq<Duty>)
    requires CfgOk(cfg, env) && InputsOk(cfg, env, r.inputs) && r.inputs.Keys == cfg.table.Keys()
    requires (Fresh(r) || Complete(cfg, r)) && RootOk(cfg, r, duties)
    ensures RootOk(cfg, Install(r, RebuiltGraphs(cfg, r.inputs)), duties)
  {
    hide Install, ClaimOpen, HasOwner, CfgOk;
    InstallFrame(r, RebuiltGraphs(cfg, r.inputs));
    InstallCompletes(cfg, env, r);
    if Complete(cfg, r) { ReinstallKeepsClaims(cfg, r); }
  }

  lemma SetupGood(cfg: Cfg, env: Env, r: Request, pog: map<Txid, Graph>, duties: seq<Duty>, ev: Event)
    requires CfgOk(cfg, env) && RequestOk(cfg, env, r, pog, duties)
    requires ev.DepositSetup? && ev.op in cfg.table.Keys() && ev.op in env.stake && ev.stakeTxid == env.stake[ev.op]
    ensures var (r', pog', more) := Setup(cfg, r, pog, ev); RequestOk(cfg, env, r', pog', duties + more)
  {
    hide Install, SetupCache, SetupGraphs, Sorted, CacheOk, CfgOk, SessionsOk, Fresh, Complete, InputsOk, WithInput;
    hide RootOk;
    var (r', pog', more) := Setup(cfg, r, pog, ev);
    var r1 := r.(inputs := WithInput(r.inputs, ev));
    CacheKeepsInput(cfg, env, r.inputs, pog, ev);
    InputStored(cfg, env, r, duties, ev);
    SetupGraphsRebuilt(cfg, env.owner, pog, r1.inputs);
    if |r1.inputs| == cfg.table.Size() {
      InputsFull(cfg, env, r1.inputs);
      InstallCompletes(cfg, env, r1);
      InstallReopens(cfg, env, r1);
      InstallFrame(r1, RebuiltGraphs(cfg, r1.inputs));
      InstallKeepsRoot(cfg, env, r1, duties);
    }
    RootOkAppend(cfg, r', duties, more);
  }

  lemma CacheKeepsInput(cfg: Cfg, env: Env, inputs: map<OpKey, GraphInput>, pog: map<Txid, Graph>, ev: Event)
    requires CfgOk(cfg, env) && CacheOk(cfg, env.owner, inputs, pog)
    requires ev.DepositSetup? && ev.op in cfg.table.Keys() && ev.op in env.stake && ev.stakeTxid == env.stake[ev.op]
    ensures CacheOk(cfg, env.owner, WithInput(inputs, ev), pog)
  {
    assert OwnStake(env.owner, ev);
    WithInputCacheOk(cfg, env.owner, inputs, pog, ev);
  }

  lemma InputsFull(cfg: Cfg, env: Env, inputs: map<OpKey, GraphInput>)
    requires CfgOk(cfg, env) && InputsOk(cfg, env, inputs) && |inputs| == cfg.table.Size()
    ensures inputs.Keys == cfg.table.Keys()
  {
    KeyFacts(cfg.table);
    SubsetOfSameSize(inputs.Keys, cfg.table.Keys());
  }

  /** Duties other than the two root duties do not matter to the root data. */
  lemma RootOkAppend(cfg: Cfg, r: Request, duties: seq<Duty>, more: seq<Duty>)
    requires RootOk(cfg, r, duties)
    requires forall d | d in more :: !d.PublishRootNonce? && !d.PublishRootSignature?
    ensures RootOk(cfg, r, duties + more)
  {
    hide Complete, SigsComplete;
    AskedAppend(duties, more);
  }

  // ---------- graph nonces ----------

  /** A full nonce session is every operator's contribution. */
  lemma FullSession(cfg: Cfg, env: Env, claim: Txid, session: map<OpKey, Nonces>)
    requires CfgOk(cfg, env) && NoncesOk(cfg, env, claim, session) && |session| == cfg.table.Size()
    ensures session == AllNonces(cfg, env, claim)
  {
    hide Sum;
    KeyFacts(cfg.table);
    SubsetOfSameSize(session.Keys, cfg.table.Keys());
  }

  /** A partial-signature session stays verified while inputs stay and aggregates are only added. */
  lemma PartialsFrame(cfg: Cfg, env: Env, r: Request, r': Request, c: Txid, session: map<OpKey, Partials>)
    requires PartialsOk(cfg, env, r, c, session) && r'.inputs == r.inputs
    requires c in r.aggNonces ==> c in r'.aggNonces
    ensures PartialsOk(cfg, env, r', c, session)
  {
    hide AllVerified, AllNonces, ClaimOf;
  }

  lemma NoncesAdded(cfg: Cfg, env: Env, r: Request, ev: Event)
    requires ev.GraphNonces? && ev.claim in r.graphNonces && ev.signer in cfg.table.Keys()
    requires ev.nonces == env.nonces(NonceId(ev.signer, ev.claim))
    requires SessionsOk(cfg, env, r)
    ensures SessionsOk(cfg, env, WithNonces(r, ev))
  {
    hide AllNonces, PartialsOk, Sum;
    var r' := WithNonces(r, ev);
    forall c | c in r'.graphNonces ensures NoncesOk(cfg, env, c, r'.graphNonces[c]) {
      assert NoncesOk(cfg, env, c, r.graphNonces[c]);
    }
    forall c | c in r'.graphPartials ensures PartialsOk(cfg, env, r', c, r'.graphPartials[c]) {
      PartialsFrame(cfg, env, r, r', c, r.graphPartials[c]);
    }
  }

  /** Completeness looks at inputs, claims, summaries and which sessions are open. */
  lemma SameShape(cfg: Cfg, r: Request, r': Request)
    requires Complete(cfg, r)
    requires r'.inputs == r.inputs && r'.claimTxids == r.claimTxids && r'.summaries == r.summaries
    requires r'.graphNonces.Keys == r.graphNonces.Keys && r'.graphPartials.Keys == r.graphPartials.Keys
    ensures Complete(cfg, r')
  {
    forall op | op in r'.inputs ensures ClaimOpen(cfg, r', op) { assert ClaimOpen(cfg, r, op); }
    forall c | c in r'.graphNonces ensures HasOwner(cfg, r', c) { assert HasOwner(cfg, r, c); }
    forall c | c in r'.graphPartials ensures HasOwner(cfg, r', c) { assert HasOwner(cfg, r, c); }
  }

  lemma OwnedClaimOpen(cfg: Cfg, r: Request, c: Txid)
    requires Complete(cfg, r) && HasOwner(cfg, r, c)
    ensures c in r.graphNonces && c in r.graphPartials && Owners(r.claimTxids, c) != {}
  {
    var op :| op in r.inputs && ClaimOf(cfg, r.inputs[op]) == c;
    assert ClaimOpen(cfg, r, op);
    assert op in Owners(r.claimTxids, c);
  }

  lemma SoleOwner(cfg: Cfg, env: Env, r: Request, op: OpKey)
    requires CfgOk(cfg, env) && InputsOk(cfg, env, r.inputs) && Complete(cfg, r) && op in r.inputs
    ensures op in r.claimTxids && Owners(r.claimTxids, r.claimTxids[op]) == {op}
  {
    hide GraphsWellFormed, VerifiedPartialsAggregate;
    assert ClaimOpen(cfg, r, op);
    forall o | o in Owners(r.claimTxids, r.claimTxids[op]) ensures o == op {
      assert ClaimOpen(cfg, r, o);
      ClaimsDistinct(cfg, env, r.inputs, o, op);
    }
  }

  lemma ClaimAggregated(cfg: Cfg, env: Env, r: Request, c: Txid)
    requires CfgOk(cfg, env) && Complete(cfg, r) && c in r.graphNonces && NoncesOk(cfg, env, c, r.graphNonces[c])
    requires SessionsFull(r.claimTxids, r.graphNonces, cfg.table.Size())
    ensures Sum(r.graphNonces[c]) == Sum(AllNonces(cfg, env, c))
  {
    hide CfgOk, NoncesOk, Sum, AllNonces;
    assert HasOwner(cfg, r, c);
    var op :| op in r.inputs && ClaimOf(cfg, r.inputs[op]) == c;
    assert ClaimOpen(cfg, r, op);
    FullSession(cfg, env, c, r.graphNonces[c]);
  }

  lemma NoncesAggregated(cfg: Cfg, env: Env, r: Request)
    requires CfgOk(cfg, env) && Complete(cfg, r) && SessionsOk(cfg, env, r)
    requires SessionsFull(r.claimTxids, r.graphNonces, cfg.table.Size())
    ensures SessionsOk(cfg, env, WithAggNonces(r))
  {
    hide AllNonces, Sum, CfgOk, PartialsOk, NoncesOk, Complete, SessionsFull;
    var r' := WithAggNonces(r);
    forall c | c in r'.aggNonces ensures r'.aggNonces[c] == Sum(AllNonces(cfg, env, c)) {
      ClaimAggregated(cfg, env, r, c);
    }
    forall c | c in r'.graphPartials ensures PartialsOk(cfg, env, r', c, r'.graphPartials[c]) {
      PartialHasSession(cfg, r, c);
      PartialsFrame(cfg, env, r, r', c, r.graphPartials[c]);
    }
  }

  lemma PartialHasSession(cfg: Cfg, r: Request, c: Txid)
    requires Complete(cfg, r) && c in r.graphPartials
    ensures c in r.graphNonces
  {
    assert HasOwner(cfg, r, c);
    OwnedClaimOpen(cfg, r, c);
  }

  /** One more lookup succeeds: the claim's only owner is the operator, and its graph is the rebuilt one. */
  lemma SigningStep(cfg: Cfg, env: Env, r: Request, pog: map<Txid, Graph>, op: OpKey)
    requires CfgOk(cfg, env) && InputsOk(cfg, env, r.inputs) && CacheOk(cfg, env.owner, r.inputs, pog)
    requires Complete(cfg, r)
    requires op in r.inputs
    ensures op in r.claimTxids && Owners(r.claimTxids, r.claimTxids[op]) == {op}
    ensures LastOwner(r.claimTxids, r.claimTxids[op]) == op
    ensures Cached(cfg, pog, r.inputs[op]) == cfg.buildGraph(r.inputs[op])
    ensures CacheOk(cfg, env.owner, r.inputs, Remember(cfg, pog, r.inputs[op]))
  {
    hide CfgOk, InputsOk, Complete, CacheOk, Sorted;
    SoleOwner(cfg, env, r, op);
    assert LastOwner(r.claimTxids, r.claimTxids[op]) in {op};
    CachedIsRebuilt(cfg, env.owner, r.inputs, pog, op);
  }

  /** All lookups succeed: each claim is signed with its own graph and its aggregate nonces. */
  lemma {:induction false} SigningSucceeds(cfg: Cfg, env: Env, r: Request, pog: map<Txid, Graph>, ops: seq<OpKey>)
    requires CfgOk(cfg, env) && InputsOk(cfg, env, r.inputs) && CacheOk(cfg, env.owner, r.inputs, pog)
    requires Complete(cfg, r)
    requires forall op | op in ops :: op in r.inputs && op in r.claimTxids && r.claimTxids[op] in r.aggNonces
    ensures var (cache, duties) := SigningDuties(cfg, r, pog, ops);
      && CacheOk(cfg, env.owner, r.inputs, cache)
      && duties.Some? && |duties.value| == |ops|
      && forall i | 0 <= i < |ops| ::
           duties.value[i] == SigningDuty(cfg, r, r.claimTxids[ops[i]], cfg.buildGraph(r.inputs[ops[i]]))
    decreases |ops|
  {
    hide CfgOk, InputsOk, Complete, CacheOk, Owners, LastOwner, SigningDuty, Cached, Remember;
    if ops != [] {
      var last := |ops| - 1;
      assert ops[last] in ops;
      SigningSucceeds(cfg, env, r, pog, ops[..last]);
      SigningStep(cfg, env, r, SigningDuties(cfg, r, pog, ops[..last]).0, ops[last]);
    }
  }

  /** What a handler of the Requested state owes: no panic, rejection without effect, the invariant otherwise. */
  ghost predicate HandlerGood(cfg: Cfg, env: Env, r: Request, pog: map<Txid, Graph>, duties: seq<Duty>,
                              r': Request, pog': map<Txid, Graph>, outcome: Outcome) {
    match outcome
    case Ok(more) => RequestOk(cfg, env, r', pog', duties + more)
    case Rejected => r' == r && pog' == pog
    case Panic => false
  }

  lemma NothingNew(duties: seq<Duty>)
    ensures duties + [] == duties
  {
  }

  lemma NoncesContributed(cfg: Cfg, env: Env, r: Request, pog: map<Txid, Graph>, duties: seq<Duty>, ev: Event)
    requires RequestOk(cfg, env, r, pog, duties)
    requires ev.GraphNonces? && ev.signer in cfg.table.Keys() && ev.nonces == env.nonces(NonceId(ev.signer, ev.claim))
    requires ev.claim in r.graphNonces
    ensures Complete(cfg, WithNonces(r, ev)) && RequestOk(cfg, env, WithNonces(r, ev), pog, duties)
  {
    hide InputsOk, Complete, CacheOk, SessionsOk, RootOk, Fresh;
    if Fresh(r) { FreshHasNoSessions(r); }
    assert WithNonces(r, ev).graphNonces.Keys == r.graphNonces.Keys;
    SameShape(cfg, r, WithNonces(r, ev));
    NoncesAdded(cfg, env, r, ev);
    RootSameShape(cfg, r, WithNonces(r, ev), duties);
  }

  lemma NoncesCompleted(cfg: Cfg, env: Env, r: Request, pog: map<Txid, Graph>, duties: seq<Duty>)
    requires CfgOk(cfg, env) && RequestOk(cfg, env, r, pog, duties) && Complete(cfg, r)
    requires SessionsFull(r.claimTxids, r.graphNonces, cfg.table.Size())
    ensures RequestOk(cfg, env, WithAggNonces(r), pog, duties) && Complete(cfg, WithAggNonces(r))
  {
    hide InputsOk, Complete, CacheOk, SessionsOk, RootOk, Fresh, CfgOk, SessionsFull, AggregateNonces;
    SameShape(cfg, r, WithAggNonces(r));
    NoncesAggregated(cfg, env, r);
    RootSameShape(cfg, r, WithAggNonces(r), duties);
  }

  lemma ClaimsAggregated(cfg: Cfg, r: Request, op: OpKey)
    requires Complete(cfg, r) && op in r.inputs
    ensures op in r.claimTxids && r.claimTxids[op] in WithAggNonces(r).aggNonces
  {
    hide Sum;
    assert ClaimOpen(cfg, r, op);
  }

  /** Once all claims have aggregate nonces every signing duty is produced. */
  lemma SigningGood(cfg: Cfg, env: Env, r: Request, pog: map<Txid, Graph>, duties: seq<Duty>, ops: seq<OpKey>)
    requires CfgOk(cfg, env) && RequestOk(cfg, env, r, pog, duties) && Complete(cfg, r)
    requires forall op | op in ops :: op in r.inputs && op in r.claimTxids && r.claimTxids[op] in r.aggNonces
    ensures var (cache, more) := SigningDuties(cfg, r, pog, ops);
      more.Some? && RequestOk(cfg, env, r, cache, duties + more.value)
  {
    hide InputsOk, Complete, CacheOk, SessionsOk, RootOk, Fresh, CfgOk, SigningDuties;
    SigningSucceeds(cfg, env, r, pog, ops);
    var more := SigningDuties(cfg, r, pog, ops).1;
    assert forall d | d in more.value :: d.PublishGraphSignatures?;
    RootOkAppend(cfg, r, duties, more.value);
  }

  lemma NoncesGood(cfg: Cfg, env: Env, r: Request, pog: map<Txid, Graph>, duties: seq<Duty>, ev: Event)
    requires CfgOk(cfg, env) && RequestOk(cfg, env, r, pog, duties)
    requires ev.GraphNonces? && ev.signer in cfg.table.Keys() && ev.nonces == env.nonces(NonceId(ev.signer, ev.claim))
    ensures var (r', pog', outcome) := AddNonces(cfg, r, pog, ev);
      HandlerGood(cfg, env, r, pog, duties, r', pog', outcome)
  {
    hide RequestOk, CfgOk, Complete, SigningDuties, SessionsFull, Sorted, WithNonces, WithAggNonces, Unpacks;
    NothingNew(duties);
    if ev.claim in r.graphNonces && ev.signer !in r.graphNonces[ev.claim] {
      var r1 := WithNonces(r, ev);
      NoncesContributed(cfg, env, r, pog, duties, ev);
      if SessionsFull(r1.claimTxids, r1.graphNonces, cfg.table.Size()) {
        NoncesCompleted(cfg, env, r1, pog, duties);
        var r2 := WithAggNonces(r1);
        AggKeepsClaims(r1);
        InputsAreClaims(cfg, r2);
        var ops := Sorted(r2.claimTxids.Keys);
        forall op | op in ops ensures op in r2.inputs && op in r2.claimTxids && r2.claimTxids[op] in r2.aggNonces {
          ClaimsAggregated(cfg, r1, op);
        }
        SigningGood(cfg, env, r2, pog, duties, ops);
      }
    }
  }

  lemma AggKeepsClaims(r: Request)
    ensures WithAggNonces(r).inputs == r.inputs && WithAggNonces(r).claimTxids == r.claimTxids
  {
  }

  lemma FreshHasNoSessions(r: Request)
    requires Fresh(r)
    ensures r.graphNonces == map[] && r.graphPartials == map[]
  {
  }

  lemma InputsAreClaims(cfg: Cfg, r: Request)
    requires Complete(cfg, r)
    ensures r.claimTxids.Keys == r.inputs.Keys
  {
  }

  /** The root data only care about completeness, claims and graph signatures. */
  lemma RootSameShape(cfg: Cfg, r: Request, r': Request, duties: seq<Duty>)
    requires RootOk(cfg, r, duties) && Complete(cfg, r')
    requires r'.rootNonces == r.rootNonces && r'.rootPartials == r.rootPartials
    requires r'.claimTxids == r.claimTxids && r'.graphSigs == r.graphSigs
    ensures RootOk(cfg, r', duties)
  {
    hide Complete, Asked, Signed;
  }
}
