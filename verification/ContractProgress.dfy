/** Nagging makes progress: a fresh contract fed only nagged messages publishes its deposit after exactly
    2n^2 + 3n accepted ones, and until then there is always something to nag for. */
module ContractProgress {
  import opened Collections
  import opened ContractTypes
  import opened ContractSpec
  import opened ContractCache
  import opened ContractInvariant
  import opened ContractSafety
  import opened ContractSigning
  import opened ContractRuns
  import opened ContractRoot
  import opened Nag

  // ---------- counting contributions ----------

  function SessionSize<V>(claimTxids: map<OpKey, Txid>, sessions: map<Txid, map<OpKey, V>>, op: OpKey): nat {
    if op in claimTxids && claimTxids[op] in sessions then |sessions[claimTxids[op]]| else 0
  }

  /** The contributions to the claims of the listed operators. */
  function Contributions<V>(ops: seq<OpKey>, claimTxids: map<OpKey, Txid>, sessions: map<Txid, map<OpKey, V>>): nat {
    if ops == [] then 0
    else Contributions(ops[..|ops| - 1], claimTxids, sessions) + SessionSize(claimTxids, sessions, ops[|ops| - 1])
  }

  lemma {:induction false} NoContributionsCount<V>(ops: seq<OpKey>, claimTxids: map<OpKey, Txid>,
      sessions: map<Txid, map<OpKey, V>>)
    requires forall c | c in sessions :: sessions[c] == map[]
    ensures Contributions(ops, claimTxids, sessions) == 0
    decreases |ops|
  {
    if ops != [] { NoContributionsCount(ops[..|ops| - 1], claimTxids, sessions); }
  }

  function Times(k: nat, n: nat): nat {
    if k == 0 then 0 else Times(k - 1, n) + n
  }

  lemma {:induction false} TimesIsProduct(k: nat, n: nat)
    ensures Times(k, n) == k * n
  {
    if k > 0 {
      TimesIsProduct(k - 1, n);
      assert (k - 1) * n + n == k * n;
    }
  }

  lemma {:induction false} ContributionsBounded<V>(ops: seq<OpKey>, claimTxids: map<OpKey, Txid>,
      sessions: map<Txid, map<OpKey, V>>, n: nat)
    requires forall op | op in ops :: SessionSize(claimTxids, sessions, op) <= n
    ensures Contributions(ops, claimTxids, sessions) <= Times(|ops|, n)
    decreases |ops|
  {
    if ops != [] {
      var last := |ops| - 1;
      assert ops[last] in ops;
      ContributionsBounded(ops[..last], claimTxids, sessions, n);
    }
  }

  lemma {:induction false} FullContributions<V>(ops: seq<OpKey>, claimTxids: map<OpKey, Txid>,
      sessions: map<Txid, map<OpKey, V>>, n: nat)
    requires forall op | op in ops :: SessionSize(claimTxids, sessions, op) == n
    ensures Contributions(ops, claimTxids, sessions) == Times(|ops|, n)
    decreases |ops|
  {
    if ops != [] {
      var last := |ops| - 1;
      assert ops[last] in ops;
      FullContributions(ops[..last], claimTxids, sessions, n);
    }
  }

  /** A new contribution to a claim with one owner among the operators counts once. */
  lemma {:induction false} ContributionCounts<V>(ops: seq<OpKey>, claimTxids: map<OpKey, Txid>,
      sessions: map<Txid, map<OpKey, V>>,
                                                 owner: OpKey, signer: OpKey, v: V)
    requires NoDup(ops) && owner in claimTxids && claimTxids[owner] in sessions
    requires signer !in sessions[claimTxids[owner]]
    requires Owners(claimTxids, claimTxids[owner]) == {owner}
    ensures Contributions(ops, claimTxids, Contribute(sessions, claimTxids[owner], signer, v))
         == Contributions(ops, claimTxids, sessions) + (if owner in ops then 1 else 0)
    decreases |ops|
  {
    if ops != [] {
      var last := |ops| - 1;
      var front, op := ops[..last], ops[last];
      assert forall i: nat, j: nat | i < |front| && j < |front| && Before(i, j) ::
        front[i] == ops[i] && front[j] == ops[j];
      ContributionCounts(front, claimTxids, sessions, owner, signer, v);
      assert op !in front by { forall i: nat | i < last ensures ops[i] != op { assert Before(i, last); } }
      assert ops == front + [op];
      OneMore(claimTxids, sessions, owner, signer, v, op);
    }
  }

  lemma OneMore<V>(claimTxids: map<OpKey, Txid>, sessions: map<Txid, map<OpKey, V>>, owner: OpKey, signer: OpKey,
      v: V, op: OpKey)
    requires owner in claimTxids && claimTxids[owner] in sessions && signer !in sessions[claimTxids[owner]]
    requires Owners(claimTxids, claimTxids[owner]) == {owner}
    ensures SessionSize(claimTxids, Contribute(sessions, claimTxids[owner], signer, v), op)
         == SessionSize(claimTxids, sessions, op) + (if op == owner then 1 else 0)
  {
    var session: map<OpKey, V> := sessions[claimTxids[owner]];
    assert session[signer := v].Keys == session.Keys + {signer};
    assert |session[signer := v]| == |session[signer := v].Keys| && |session| == |session.Keys|;
    assert op in Owners(claimTxids, claimTxids[owner]) <==> op in claimTxids && claimTxids[op] == claimTxids[owner];
  }

  function Collected(cfg: Cfg, r: Request): nat {
    var ops := cfg.table.KeySeq();
    |r.inputs| + Contributions(ops, r.claimTxids, r.graphNonces) + Contributions(ops, r.claimTxids, r.graphPartials)
    + |r.rootNonces| + |r.rootPartials|
  }

  function AllMessages(n: nat): nat {
    2 * n * n + 3 * n
  }

  // ---------- stages ----------

  ghost predicate NoncesFull(cfg: Cfg, r: Request) {
    SessionsFull(r.claimTxids, r.graphNonces, cfg.table.Size())
  }

  ghost predicate PartialsFull(cfg: Cfg, r: Request) {
    SessionsFull(r.claimTxids, r.graphPartials, cfg.table.Size())
  }

  ghost predicate Published(duties: seq<Duty>) {
    exists d :: d in duties && d.PublishDeposit?
  }

  /** Each stage starts only when the previous one is complete. */
  ghost predicate Staged(cfg: Cfg, r: Request, duties: seq<Duty>) {
    && (!Complete(cfg, r) ==> r.rootNonces == map[] && r.rootPartials == map[])
    && (Complete(cfg, r) && !NoncesFull(cfg, r) ==> forall c | c in r.graphPartials :: r.graphPartials[c] == map[])
    && (Complete(cfg, r) && NoncesFull(cfg, r) ==> forall op | op in r.claimTxids :: r.claimTxids[op] in r.aggNonces)
    && (Complete(cfg, r) && !PartialsFull(cfg, r) ==> r.rootNonces == map[])
    && (Complete(cfg, r) && PartialsFull(cfg, r) ==> NoncesFull(cfg, r) && Asked(duties))
    && (|r.rootNonces| != cfg.table.Size() ==> r.rootPartials == map[])
    && (Published(duties) <==> |r.rootPartials| == cfg.table.Size())
    && RootVerified(cfg, r)
  }

  /** The stake chain knows at least the operators whose setup this contract has. */
  function View(staked: set<OpKey>, s: ContractState): Tracked {
    Tracked(if s.Requested? then staked + s.r.inputs.Keys else staked, s)
  }

  /** The message a request is for, as the manager routes it: by claim first, then by deposit request. */
  predicate Answers(r: Request, req: NagRequest, ev: Event) {
    match req
    case StakeChainExchange(_) => false
    case SetupFor(_, op) => ev.DepositSetup? && ev.op == op
    case NoncesFor(session, op) =>
      if session in r.claimTxids.Values then ev.GraphNonces? && ev.claim == session && ev.signer == op
      else session == r.depositRequestTxid && ev.RootNonce? && ev.signer == op
    case SignaturesFor(session, op) =>
      if session in r.claimTxids.Values then ev.GraphSigs? && ev.claim == session && ev.signer == op
      else session == r.depositRequestTxid && ev.RootSig? && ev.signer == op
  }

  /** An accepted message leaves its mark. */
  predicate Accepted(cfg: Cfg, m: Machine, ev: Event) {
    Step(cfg, m, ev).1.Ok? && Step(cfg, m, ev).0.state != m.state
  }

  /** A claim never has the txid of the deposit request. */
  ghost predicate RequestIsNoClaim(cfg: Cfg) {
    forall x: GraphInput :: ClaimOf(cfg, x) != cfg.depositRequestTxid
  }

  // ---------- what a missing message says about the stage ----------

  lemma SetupStage(cfg: Cfg, env: Env, r: Request, pog: map<Txid, Graph>, duties: seq<Duty>, staked: set<OpKey>,
      txid: Txid, stage: nat, req: NagRequest)
    requires RequestOk(cfg, env, r, pog, duties) && cfg.table.Valid() && stage < 2
    requires Missing(stage, req, cfg.table.Keys(), txid, View(staked, Requested(r)))
    ensures req.SetupFor? && req.operator in cfg.table.Keys() && req.operator !in r.inputs
    ensures |r.inputs| < cfg.table.Size() && Fresh(r) && !Complete(cfg, r)
  {
    hide CacheOk, SessionsOk, RootOk, Fresh;
    KeyFacts(cfg.table);
    SubsetSize(r.inputs.Keys + {req.operator}, cfg.table.Keys());
    assert |r.inputs.Keys + {req.operator}| == |r.inputs.Keys| + 1;
  }

  /** No setup is missing: the state is complete. */
  lemma SetupsDone(cfg: Cfg, env: Env, r: Request, pog: map<Txid, Graph>, duties: seq<Duty>, staked: set<OpKey>,
      txid: Txid)
    requires RequestOk(cfg, env, r, pog, duties) && cfg.table.Valid()
    requires StageDone(1, cfg.table.Keys(), txid, View(staked, Requested(r)))
    ensures Complete(cfg, r)
  {
    hide CacheOk, SessionsOk, RootOk, Fresh, Complete;
    KeyFacts(cfg.table);
    forall op | op in cfg.table.Keys() ensures op in r.inputs {
      assert !Missing(1, SetupFor(txid, op), cfg.table.Keys(), txid, View(staked, Requested(r)));
    }
    assert r.inputs.Keys == cfg.table.Keys();
  }

  /** No contribution is missing: the sessions are full; and conversely. */
  lemma NothingMissingIffFull<V>(cfg: Cfg, claimTxids: map<OpKey, Txid>, sessions: map<Txid, map<OpKey, V>>)
    requires cfg.table.Valid()
    requires forall op | op in claimTxids ::
      claimTxids[op] in sessions && sessions[claimTxids[op]].Keys <= cfg.table.Keys()
    ensures SessionsFull(claimTxids, sessions, cfg.table.Size())
      <==> forall claim, op :: !ClaimMissing(cfg.table.Keys(), claimTxids, sessions, claim, op)
  {
    KeyFacts(cfg.table);
    var n := cfg.table.Size();
    if SessionsFull(claimTxids, sessions, n) {
      forall claim, op | claim in claimTxids.Values
        ensures !ClaimMissing(cfg.table.Keys(), claimTxids, sessions, claim, op)
      {
        var o :| o in claimTxids && claimTxids[o] == claim;
        SubsetOfSameSize(sessions[claim].Keys, cfg.table.Keys());
      }
    } else {
      var o :| o in claimTxids && |sessions[claimTxids[o]]| != n;
      var claim := claimTxids[o];
      assert claim in claimTxids.Values;
      assert sessions[claim].Keys != cfg.table.Keys();
      var op :| op in cfg.table.Keys() && op !in sessions[claim];
      assert ClaimMissing(cfg.table.Keys(), claimTxids, sessions, claim, op);
    }
  }

  lemma SessionsWithin(cfg: Cfg, env: Env, r: Request, op: OpKey)
    requires SessionsOk(cfg, env, r) && Complete(cfg, r) && op in r.claimTxids
    ensures r.claimTxids[op] in r.graphNonces && r.graphNonces[r.claimTxids[op]].Keys <= cfg.table.Keys()
    ensures r.claimTxids[op] in r.graphPartials && r.graphPartials[r.claimTxids[op]].Keys <= cfg.table.Keys()
  {
    hide AllVerified, AllNonces, Sum, SigOk;
    assert ClaimOpen(cfg, r, op);
    assert NoncesOk(cfg, env, r.claimTxids[op], r.graphNonces[r.claimTxids[op]]);
    assert PartialsOk(cfg, env, r, r.claimTxids[op], r.graphPartials[r.claimTxids[op]]);
  }

  /** What the stages before a missing message imply. */
  lemma StageFacts(cfg: Cfg, env: Env, r: Request, pog: map<Txid, Graph>, duties: seq<Duty>, staked: set<OpKey>,
      txid: Txid, stage: nat)
    requires RequestOk(cfg, env, r, pog, duties) && cfg.table.Valid()
    requires stage >= 2 && EarlierDone(stage, cfg.table.Keys(), txid, View(staked, Requested(r)))
    ensures Complete(cfg, r)
    ensures stage >= 3 ==> NoncesFull(cfg, r)
    ensures stage >= 4 ==> PartialsFull(cfg, r)
    ensures stage >= 5 ==> r.rootNonces.Keys == cfg.table.Keys()
  {
    hide CacheOk, SessionsOk, Fresh, Complete, InputsOk, SessionsFull, StageDone, Asked, Signed, SigsComplete;
    var c := View(staked, Requested(r));
    var want := cfg.table.Keys();
    assert StageDone(1, want, txid, c);
    SetupsDone(cfg, env, r, pog, duties, staked, txid);
    forall op | op in r.claimTxids
      ensures r.claimTxids[op] in r.graphNonces && r.graphNonces[r.claimTxids[op]].Keys <= cfg.table.Keys()
      ensures r.claimTxids[op] in r.graphPartials && r.graphPartials[r.claimTxids[op]].Keys <= cfg.table.Keys()
    {
      SessionsWithin(cfg, env, r, op);
    }
    NothingMissingIffFull(cfg, r.claimTxids, r.graphNonces);
    NothingMissingIffFull(cfg, r.claimTxids, r.graphPartials);
    if stage >= 3 { assert StageDone(2, want, txid, c); NoncesStageDone(r, want, txid, c); }
    if stage >= 4 { assert StageDone(3, want, txid, c); PartialsStageDone(r, want, txid, c); }
    if stage >= 5 { assert StageDone(4, want, txid, c); RootNoncesStageDone(r, want, txid, c); }
  }

  lemma NoncesStageDone(r: Request, want: set<OpKey>, txid: Txid, c: Tracked)
    requires c.state == Requested(r) && StageDone(2, want, txid, c)
    ensures forall claim, op :: !ClaimMissing(want, r.claimTxids, r.graphNonces, claim, op)
  {
    forall claim: Txid, op: OpKey ensures !ClaimMissing(want, r.claimTxids, r.graphNonces, claim, op) {
      assert !Missing(2, NoncesFor(claim, op), want, txid, c);
    }
  }

  lemma PartialsStageDone(r: Request, want: set<OpKey>, txid: Txid, c: Tracked)
    requires c.state == Requested(r) && StageDone(3, want, txid, c)
    ensures forall claim, op :: !ClaimMissing(want, r.claimTxids, r.graphPartials, claim, op)
  {
    forall claim: Txid, op: OpKey ensures !ClaimMissing(want, r.claimTxids, r.graphPartials, claim, op) {
      assert !Missing(3, SignaturesFor(claim, op), want, txid, c);
    }
  }

  lemma RootNoncesStageDone(r: Request, want: set<OpKey>, txid: Txid, c: Tracked)
    requires c.state == Requested(r) && StageDone(4, want, txid, c)
    ensures want <= r.rootNonces.Keys
  {
    forall op | op in want ensures op in r.rootNonces {
      assert !Missing(4, NoncesFor(r.depositRequestTxid, op), want, txid, c);
    }
  }

  // ---------- one accepted message, stage by stage ----------

  lemma PublishedAppend(a: seq<Duty>, b: seq<Duty>)
    ensures Published(a + b) <==> Published(a) || Published(b)
  {
    assert forall d :: d in a + b <==> d in a || d in b;
  }

  lemma FreshCounts(cfg: Cfg, r: Request)
    requires Fresh(r)
    ensures Collected(cfg, r) == |r.inputs| + |r.rootNonces| + |r.rootPartials|
  {
    NoContributionsCount(cfg.table.KeySeq(), r.claimTxids, r.graphNonces);
    NoContributionsCount(cfg.table.KeySeq(), r.claimTxids, r.graphPartials);
  }

  lemma InstalledCounts(cfg: Cfg, r: Request)
    requires Fresh(r)
    ensures var r' := Install(r, RebuiltGraphs(cfg, r.inputs));
      && Collected(cfg, r') == |r.inputs| + |r.rootNonces| + |r.rootPartials|
      && (forall c | c in r'.graphNonces :: r'.graphNonces[c] == map[])
      && (forall c | c in r'.graphPartials :: r'.graphPartials[c] == map[])
  {
    hide Install;
    var r' := Install(r, RebuiltGraphs(cfg, r.inputs));
    InstallFrame(r, RebuiltGraphs(cfg, r.inputs));
    forall c | c in r'.graphNonces ensures r'.graphNonces[c] == map[] { SessionInstalled(cfg, r, c); }
    forall c | c in r'.graphPartials ensures r'.graphPartials[c] == map[] { SessionInstalled(cfg, r, c); }
    NoContributionsCount(cfg.table.KeySeq(), r'.claimTxids, r'.graphNonces);
    NoContributionsCount(cfg.table.KeySeq(), r'.claimTxids, r'.graphPartials);
  }

  /** Empty sessions are not full: there is at least one operator. */
  lemma EmptyIsNotFull<V>(cfg: Cfg, claimTxids: map<OpKey, Txid>, sessions: map<Txid, map<OpKey, V>>)
    requires cfg.table.Valid() && claimTxids.Keys == cfg.table.Keys()
    requires forall c | c in sessions :: sessions[c] == map[]
    ensures !SessionsFull(claimTxids, sessions, cfg.table.Size())
  {
    KeyFacts(cfg.table);
    assert cfg.table.PovKey() in claimTxids;
  }

  lemma NotPublished(duties: seq<Duty>, more: seq<Duty>)
    requires forall d | d in more :: !SignsDeposit(d)
    ensures Published(duties + more) <==> Published(duties)
  {
    PublishedAppend(duties, more);
  }

  lemma SetupProgress(cfg: Cfg, env: Env, r: Request, pog: map<Txid, Graph>, duties: seq<Duty>, ev: Event)
    requires CfgOk(cfg, env) && RequestOk(cfg, env, r, pog, duties) && Staged(cfg, r, duties) && Fresh(r)
    requires !Complete(cfg, r)
    requires ev.DepositSetup? && ev.op in cfg.table.Keys() && ev.op in env.stake && ev.stakeTxid == env.stake[ev.op]
    requires ev.op !in r.inputs && |r.inputs| < cfg.table.Size()
    ensures var (r', pog', more) := Setup(cfg, r, pog, ev);
      Staged(cfg, r', duties + more) && Collected(cfg, r') == Collected(cfg, r) + 1
  {
    hide Install, SetupCache, SetupGraphs, Sorted, CacheOk, SessionsOk, Fresh, Complete, InputsOk, RootOk, Collected;
    hide NonceDuties;
    hide GraphsWellFormed, VerifiedPartialsAggregate, SessionsFull, Asked, Published, RootVerified, RebuiltGraphs;
    var (r', pog', more) := Setup(cfg, r, pog, ev);
    var r1 := r.(inputs := WithInput(r.inputs, ev));
    NewKey(r.inputs, ev.op, r1.inputs[ev.op]);
    FreshStays(r, r1.inputs);
    FreshCounts(cfg, r);
    FreshCounts(cfg, r1);
    SetupAsksNonces(cfg, r, pog, ev);
    NotPublished(duties, more);
    NoEmptyTable(cfg);
    InstallFrame(r1, RebuiltGraphs(cfg, r1.inputs));
    NoPartialsVerified(cfg, r1);
    NoPartialsVerified(cfg, Install(r1, RebuiltGraphs(cfg, r1.inputs)));
    if |r1.inputs| == cfg.table.Size() {
      SetupGood(cfg, env, r, pog, duties, ev);
      CacheKeepsInput(cfg, env, r.inputs, pog, ev);
      SetupGraphsRebuilt(cfg, env.owner, pog, r1.inputs);
      InstalledCounts(cfg, r1);
      assert Complete(cfg, r');
      InputsAreClaims(cfg, r');
      CompleteInputs(cfg, r');
      EmptyIsNotFull(cfg, r'.claimTxids, r'.graphNonces);
      EmptyIsNotFull(cfg, r'.claimTxids, r'.graphPartials);
    } else {
      SmallIsNotComplete(cfg, r1);
    }
  }

  lemma NoPartialsVerified(cfg: Cfg, r: Request)
    ensures r.rootPartials == map[] ==> RootVerified(cfg, r)
  {
  }

  lemma NoEmptyTable(cfg: Cfg)
    requires cfg.table.Valid()
    ensures cfg.table.Size() > 0
  {
    KeyFacts(cfg.table);
  }

  lemma CompleteInputs(cfg: Cfg, r: Request)
    requires Complete(cfg, r)
    ensures r.inputs.Keys == cfg.table.Keys()
  {
  }

  lemma SmallIsNotComplete(cfg: Cfg, r: Request)
    requires cfg.table.Valid() && |r.inputs| != cfg.table.Size()
    ensures !Complete(cfg, r)
  {
    KeyFacts(cfg.table);
    assert |r.inputs| == |r.inputs.Keys|;
  }

  lemma FreshStays(r: Request, inputs: map<OpKey, GraphInput>)
    requires Fresh(r)
    ensures Fresh(r.(inputs := inputs))
  {
  }

  /** A stored graph nonce: one more contribution, aggregates when it was the last. */
  lemma NoncesEffect(cfg: Cfg, r: Request, pog: map<Txid, Graph>, ev: Event)
    requires ev.GraphNonces? && AddNonces(cfg, r, pog, ev).2.Ok? && AddNonces(cfg, r, pog, ev).0 != r
    ensures ev.claim in r.graphNonces && ev.signer !in r.graphNonces[ev.claim]
    ensures var r' := AddNonces(cfg, r, pog, ev).0;
      && r' == r.(graphNonces := Contribute(r.graphNonces, ev.claim, ev.signer, ev.nonces), aggNonces := r'.aggNonces)
      && (SessionsFull(r'.claimTxids, r'.graphNonces, cfg.table.Size()) ==>
            forall op | op in r'.claimTxids :: r'.claimTxids[op] in r'.aggNonces)
  {
    hide Sum, Sorted, SigningDuties, Contribute;
  }

  /** A stored contribution to a claim of a complete state counts once. */
  lemma ContributionCounted<V>(cfg: Cfg, env: Env, r: Request, sessions: map<Txid, map<OpKey, V>>, claim: Txid,
      signer: OpKey, v: V)
    requires CfgOk(cfg, env) && InputsOk(cfg, env, r.inputs) && Complete(cfg, r)
    requires claim in r.claimTxids.Values && claim in sessions && signer !in sessions[claim]
    ensures Contributions(cfg.table.KeySeq(), r.claimTxids, Contribute(sessions, claim, signer, v))
         == Contributions(cfg.table.KeySeq(), r.claimTxids, sessions) + 1
  {
    hide InputsOk, ClaimOpen, HasOwner, GraphsWellFormed, VerifiedPartialsAggregate;
    KeyFacts(cfg.table);
    var owner :| owner in r.claimTxids && r.claimTxids[owner] == claim;
    SoleOwner(cfg, env, r, owner);
    assert owner in Elems(cfg.table.KeySeq());
    ContributionCounts(cfg.table.KeySeq(), r.claimTxids, sessions, owner, signer, v);
  }

  lemma NoncesProgress(cfg: Cfg, env: Env, r: Request, pog: map<Txid, Graph>, duties: seq<Duty>, ev: Event)
    requires CfgOk(cfg, env) && RequestOk(cfg, env, r, pog, duties) && Staged(cfg, r, duties)
    requires Complete(cfg, r) && !NoncesFull(cfg, r)
    requires ev.GraphNonces? && ev.signer in cfg.table.Keys() && ev.nonces == env.nonces(NonceId(ev.signer, ev.claim))
    requires ev.claim in r.claimTxids.Values
    requires AddNonces(cfg, r, pog, ev).2.Ok? && AddNonces(cfg, r, pog, ev).0 != r
    ensures var (r', pog', outcome) := AddNonces(cfg, r, pog, ev);
      Staged(cfg, r', duties + outcome.duties) && Collected(cfg, r') == Collected(cfg, r) + 1
  {
    hide AddNonces, CacheOk, SessionsOk, Fresh, RootOk, Contributions, Contribute, Asked, Published, SessionsFull;
    hide InputsOk, Complete;
    var (r', pog', outcome) := AddNonces(cfg, r, pog, ev);
    NoncesEffect(cfg, r, pog, ev);
    NoncesGood(cfg, env, r, pog, duties, ev);
    ContributionCounted(cfg, env, r, r.graphNonces, ev.claim, ev.signer, ev.nonces);
    NoncesAskSignatures(cfg, r, pog, ev);
    NotPublished(duties, outcome.duties);
    CompleteInputs(cfg, r);
    InputsAreClaims(cfg, r);
    EmptyIsNotFull(cfg, r'.claimTxids, r'.graphPartials);
    assert Complete(cfg, r') by { FullInputsComplete(cfg, env, r', pog', duties + outcome.duties); }
  }

  lemma FullInputsComplete(cfg: Cfg, env: Env, r: Request, pog: map<Txid, Graph>, duties: seq<Duty>)
    requires cfg.table.Valid() && RequestOk(cfg, env, r, pog, duties) && r.inputs.Keys == cfg.table.Keys()
    ensures Complete(cfg, r)
  {
    hide CacheOk, SessionsOk, Fresh, RootOk, InputsOk, Complete;
    KeyFacts(cfg.table);
    assert |r.inputs| == |r.inputs.Keys|;
  }

  lemma PartialsEffect(cfg: Cfg, r: Request, pog: map<Txid, Graph>, ev: Event)
    requires ev.GraphSigs? && AddPartials(cfg, r, pog, ev).1.Ok? && AddPartials(cfg, r, pog, ev).0 != r
    ensures ev.claim in r.graphPartials && ev.signer !in r.graphPartials[ev.claim]
    ensures var (r', outcome) := AddPartials(cfg, r, pog, ev);
      && r' == r.(graphPartials := Contribute(r.graphPartials, ev.claim, ev.signer, ev.partials),
        graphSigs := r'.graphSigs)
      && (SessionsFull(r'.claimTxids, r'.graphPartials, cfg.table.Size()) ==>
        outcome.duties == [RootNonceDuty(cfg, r.rootNonces)])
  {
    hide Sorted, ByClaim, CanAggregate, AggregateSigs, Contribute, VerifyPartials, Owners, MinOf, Cached;
    hide CachedGraphs, Unpacks;
    hide SessionsFull, RootNonceDuty;
  }

  lemma AskedNow(duties: seq<Duty>, cfg: Cfg, nonces: map<OpKey, Nonce>)
    ensures Asked(duties + [RootNonceDuty(cfg, nonces)])
  {
    AskedAppend(duties, [RootNonceDuty(cfg, nonces)]);
    assert RootNonceDuty(cfg, nonces) in [RootNonceDuty(cfg, nonces)];
  }

  lemma PartialsProgress(cfg: Cfg, env: Env, r: Request, pog: map<Txid, Graph>, duties: seq<Duty>, ev: Event)
    requires CfgOk(cfg, env) && RequestOk(cfg, env, r, pog, duties) && Staged(cfg, r, duties)
    requires Complete(cfg, r) && NoncesFull(cfg, r) && !PartialsFull(cfg, r)
    requires ev.GraphSigs? && ev.signer in cfg.table.Keys() && ev.claim in r.claimTxids.Values
    requires AddPartials(cfg, r, pog, ev).1.Ok? && AddPartials(cfg, r, pog, ev).0 != r
    ensures var (r', outcome) := AddPartials(cfg, r, pog, ev);
      Staged(cfg, r', duties + outcome.duties) && Collected(cfg, r') == Collected(cfg, r) + 1
  {
    hide AddPartials, CacheOk, SessionsOk, Fresh, RootOk, Contributions, Contribute, Asked, Published, SessionsFull;
    hide InputsOk, Complete;
    hide RootNonceDuty;
    var (r', outcome) := AddPartials(cfg, r, pog, ev);
    PartialsEffect(cfg, r, pog, ev);
    PartialsGood(cfg, env, r, pog, duties, ev);
    ContributionCounted(cfg, env, r, r.graphPartials, ev.claim, ev.signer, ev.partials);
    PartialsAskRootNonce(cfg, r, pog, ev);
    NotPublished(duties, outcome.duties);
    AskedNow(duties, cfg, r.rootNonces);
    CompleteInputs(cfg, r);
    InputsAreClaims(cfg, r);
    NoEmptyTable(cfg);
    assert Complete(cfg, r') by { FullInputsComplete(cfg, env, r', pog, duties + outcome.duties); }
  }

  /** Root data are not what completeness, sessions or asking depend on. */
  lemma RootStaged(cfg: Cfg, env: Env, r: Request, r': Request, duties: seq<Duty>, more: seq<Duty>)
    requires Staged(cfg, r, duties) && Complete(cfg, r) && PartialsFull(cfg, r)
    requires r' == r.(rootNonces := r'.rootNonces, rootPartials := r'.rootPartials)
    requires |r'.rootNonces| != cfg.table.Size() ==> r'.rootPartials == map[]
    requires Published(duties + more) <==> |r'.rootPartials| == cfg.table.Size()
    requires RootVerified(cfg, r')
    ensures Staged(cfg, r', duties + more)
  {
    hide Complete, SessionsFull, Asked, Signed, Published, RootVerified;
    SameShape(cfg, r, r');
    AskedAppend(duties, more);
  }

  lemma RootNonceProgress(cfg: Cfg, env: Env, r: Request, pog: map<Txid, Graph>, duties: seq<Duty>, ev: Event)
    requires CfgOk(cfg, env) && Staged(cfg, r, duties) && Complete(cfg, r) && PartialsFull(cfg, r)
    requires ev.RootNonce? && |r.rootNonces| != cfg.table.Size() && ev.signer !in r.rootNonces
    ensures var (r', more) := AddRootNonce(cfg, r, ev);
      Staged(cfg, r', duties + more) && Collected(cfg, r') == Collected(cfg, r) + 1
  {
    hide Complete, SessionsFull, Asked, Published, Contributions, InTableOrder, GraphsWellFormed;
    hide VerifiedPartialsAggregate;
    var (r', more) := AddRootNonce(cfg, r, ev);
    NewKey(r.rootNonces, ev.signer, ev.nonce);
    NoEmptyTable(cfg);
    PublishedAppend(duties, more);
    NoDepositIn(more);
    RootStaged(cfg, env, r, r', duties, more);
  }

  lemma NoDepositIn(more: seq<Duty>)
    ensures Published(more) <==> exists d :: d in more && d.PublishDeposit?
    ensures (forall d | d in more :: !d.PublishDeposit?) ==> !Published(more)
  {
  }

  lemma RootSigProgress(cfg: Cfg, env: Env, r: Request, pog: map<Txid, Graph>, duties: seq<Duty>, ev: Event)
    requires cfg.table.Valid() && Staged(cfg, r, duties) && Complete(cfg, r) && PartialsFull(cfg, r)
    requires ev.RootSig? && |r.rootNonces| == cfg.table.Size() && |r.rootPartials| != cfg.table.Size()
    requires AddRootPartial(cfg, r, ev).1.Ok? && AddRootPartial(cfg, r, ev).0 != r
    ensures var (r', outcome) := AddRootPartial(cfg, r, ev);
      Staged(cfg, r', duties + outcome.duties) && Collected(cfg, r') == Collected(cfg, r) + 1
  {
    hide Complete, SessionsFull, Asked, Contributions, InTableOrder, Sum;
    var (r', outcome) := AddRootPartial(cfg, r, ev);
    NewKey(r.rootPartials, ev.signer, ev.partial);
    PublishedAppend(duties, outcome.duties);
    if |r'.rootPartials| == cfg.table.Size() { assert outcome.duties[0] in outcome.duties; }
    RootSigKeepsVerified(cfg, r, ev);
    RootStaged(cfg, env, r, r', duties, outcome.duties);
  }

  // ---------- how much there is to collect ----------

  lemma SizeWithin<V>(cfg: Cfg, claimTxids: map<OpKey, Txid>, sessions: map<Txid, map<OpKey, V>>, op: OpKey)
    requires cfg.table.Valid() && op in claimTxids
    requires claimTxids[op] in sessions && sessions[claimTxids[op]].Keys <= cfg.table.Keys()
    ensures SessionSize(claimTxids, sessions, op) <= cfg.table.Size()
  {
    KeyFacts(cfg.table);
    SubsetSize(sessions[claimTxids[op]].Keys, cfg.table.Keys());
  }

  lemma ListedKey(cfg: Cfg, op: OpKey)
    requires cfg.table.Valid() && op in cfg.table.KeySeq()
    ensures op in cfg.table.Keys() && |cfg.table.KeySeq()| == cfg.table.Size()
  {
    KeyFacts(cfg.table);
    assert op in Elems(cfg.table.KeySeq());
  }

  lemma CountWithin<V>(cfg: Cfg, claimTxids: map<OpKey, Txid>, sessions: map<Txid, map<OpKey, V>>)
    requires cfg.table.Valid() && claimTxids.Keys == cfg.table.Keys()
    requires forall op | op in claimTxids ::
      claimTxids[op] in sessions && sessions[claimTxids[op]].Keys <= cfg.table.Keys()
    ensures Contributions(cfg.table.KeySeq(), claimTxids, sessions) <= cfg.table.Size() * cfg.table.Size()
    ensures SessionsFull(claimTxids, sessions, cfg.table.Size()) ==>
      Contributions(cfg.table.KeySeq(), claimTxids, sessions) == cfg.table.Size() * cfg.table.Size()
  {
    hide Contributions, SessionSize, Times;
    var n, ops := cfg.table.Size(), cfg.table.KeySeq();
    TimesIsProduct(n, n);
    forall op | op in ops ensures SessionSize(claimTxids, sessions, op) <= n {
      ListedKey(cfg, op);
      SizeWithin(cfg, claimTxids, sessions, op);
    }
    ContributionsBounded(ops, claimTxids, sessions, n);
    if SessionsFull(claimTxids, sessions, n) {
      forall op | op in ops ensures SessionSize(claimTxids, sessions, op) == n {
        ListedKey(cfg, op);
        FullSize(claimTxids, sessions, n, op);
      }
      FullContributions(ops, claimTxids, sessions, n);
    }
  }

  lemma FullSize<V>(claimTxids: map<OpKey, Txid>, sessions: map<Txid, map<OpKey, V>>, n: nat, op: OpKey)
    requires SessionsFull(claimTxids, sessions, n) && op in claimTxids
    ensures SessionSize(claimTxids, sessions, op) == n
  {
  }

  lemma CompleteCounts(cfg: Cfg, env: Env, r: Request)
    requires cfg.table.Valid() && Complete(cfg, r) && SessionsOk(cfg, env, r)
    ensures var n, ops := cfg.table.Size(), cfg.table.KeySeq();
      && |r.inputs| == n
      && Contributions(ops, r.claimTxids, r.graphNonces) <= n * n
      && Contributions(ops, r.claimTxids, r.graphPartials) <= n * n
      && (NoncesFull(cfg, r) ==> Contributions(ops, r.claimTxids, r.graphNonces) == n * n)
      && (PartialsFull(cfg, r) ==> Contributions(ops, r.claimTxids, r.graphPartials) == n * n)
  {
    hide Complete, SessionsOk, SessionsFull, Contributions;
    KeyFacts(cfg.table);
    CompleteInputs(cfg, r);
    InputsAreClaims(cfg, r);
    assert |r.inputs| == |r.inputs.Keys|;
    forall op | op in r.claimTxids
      ensures r.claimTxids[op] in r.graphNonces && r.graphNonces[r.claimTxids[op]].Keys <= cfg.table.Keys()
      ensures r.claimTxids[op] in r.graphPartials && r.graphPartials[r.claimTxids[op]].Keys <= cfg.table.Keys()
    {
      SessionsWithin(cfg, env, r, op);
    }
    CountWithin(cfg, r.claimTxids, r.graphNonces);
    CountWithin(cfg, r.claimTxids, r.graphPartials);
  }

  lemma Totals(n: nat, square: nat, nonces: nat, partials: nat, rootNonces: nat, rootPartials: nat)
    requires n > 0 && square == n * n && nonces <= square && partials <= square && rootNonces <= n
    requires rootPartials <= rootNonces
    requires nonces < square ==> partials == 0
    requires partials < square ==> rootNonces == 0
    ensures var total := n + nonces + partials + rootNonces + rootPartials;
      total <= AllMessages(n) && (total == AllMessages(n) <==> rootPartials == n)
  {
    assert square >= 1;
    assert AllMessages(n) == 2 * square + 3 * n;
  }

  /** Before the setup is complete only inputs have been collected, and not all of them. */
  lemma FreshIsShort(cfg: Cfg, env: Env, r: Request, pog: map<Txid, Graph>, duties: seq<Duty>)
    requires cfg.table.Valid() && RequestOk(cfg, env, r, pog, duties) && Staged(cfg, r, duties) && !Complete(cfg, r)
    ensures Collected(cfg, r) < AllMessages(cfg.table.Size()) && |r.rootPartials| == 0
  {
    hide CacheOk, SessionsOk, Fresh, Complete, InputsOk, RootOk, Collected, Published, Asked;
    FreshCounts(cfg, r);
    NoEmptyTable(cfg);
    RootSizes(cfg, env, r, pog, duties);
    assert 2 * cfg.table.Size() * cfg.table.Size() >= 0;
  }

  /** Everything is collected exactly when every operator's deposit signature is. */
  lemma AllCollectedIff(cfg: Cfg, env: Env, r: Request, pog: map<Txid, Graph>, duties: seq<Duty>)
    requires cfg.table.Valid() && RequestOk(cfg, env, r, pog, duties) && Staged(cfg, r, duties)
    ensures Collected(cfg, r) <= AllMessages(cfg.table.Size())
    ensures Collected(cfg, r) == AllMessages(cfg.table.Size()) <==> |r.rootPartials| == cfg.table.Size()
  {
    hide RequestOk, Complete, SessionsFull, Contributions, Asked, Published, AllMessages;
    NoEmptyTable(cfg);
    if Complete(cfg, r) {
      RootSizes(cfg, env, r, pog, duties);
      SessionsPart(cfg, env, r, pog, duties);
      CompleteCounts(cfg, env, r);
      var ops, n := cfg.table.KeySeq(), cfg.table.Size();
      if !NoncesFull(cfg, r) { NoContributionsCount(ops, r.claimTxids, r.graphPartials); }
      Totals(n, n * n, Contributions(ops, r.claimTxids, r.graphNonces),
        Contributions(ops, r.claimTxids, r.graphPartials),
             |r.rootNonces|, |r.rootPartials|);
    } else {
      FreshIsShort(cfg, env, r, pog, duties);
    }
  }

  lemma SessionsPart(cfg: Cfg, env: Env, r: Request, pog: map<Txid, Graph>, duties: seq<Duty>)
    requires RequestOk(cfg, env, r, pog, duties)
    ensures SessionsOk(cfg, env, r)
  {
    hide CacheOk, SessionsOk, Fresh, Complete, InputsOk, RootOk;
  }

  lemma RootSizes(cfg: Cfg, env: Env, r: Request, pog: map<Txid, Graph>, duties: seq<Duty>)
    requires cfg.table.Valid() && RequestOk(cfg, env, r, pog, duties)
    ensures |r.inputs| <= cfg.table.Size() && |r.rootNonces| <= cfg.table.Size() && |r.rootPartials| <= |r.rootNonces|
  {
    hide CacheOk, SessionsOk, Fresh, Complete, Asked, Signed, SigsComplete;
    KeyFacts(cfg.table);
    SubsetSize(r.inputs.Keys, cfg.table.Keys());
    SubsetSize(r.rootNonces.Keys, cfg.table.Keys());
    SubsetSize(r.rootPartials.Keys, r.rootNonces.Keys);
  }

  // ---------- nagged runs ----------

  /** A nagged message that is accepted, or a block below the abort deadline. */
  ghost predicate NagStep(cfg: Cfg, env: Env, staked: set<OpKey>, txid: Txid, t: Trace, ev: Event) {
    && Admissible(cfg, env, t, ev)
    && t.m.state.Requested?
    && (|| (ev.Block? && ev.height < t.m.state.r.abortDeadline)
        || (Accepted(cfg, t.m, ev) && AnswersNag(cfg, staked, txid, t.m.state, ev)))
  }

  ghost predicate AnswersNag(cfg: Cfg, staked: set<OpKey>, txid: Txid, s: ContractState, ev: Event)
    requires s.Requested?
  {
    exists req :: Nagged(req, cfg.table.Keys(), txid, View(staked, s)) && Answers(s.r, req, ev)
  }

  ghost predicate NaggedRun(cfg: Cfg, env: Env, staked: set<OpKey>, txid: Txid, height: Height, deadline: Height,
      evs: seq<Event>) {
    evs == [] ||
    (&& NaggedRun(cfg, env, staked, txid, height, deadline, evs[..|evs| - 1])
     && NagStep(cfg, env, staked, txid, Exec(cfg, height, deadline, evs[..|evs| - 1]), evs[|evs| - 1]))
  }

  function Messages(evs: seq<Event>): nat {
    if evs == [] then 0 else Messages(evs[..|evs| - 1]) + if evs[|evs| - 1].Block? then 0 else 1
  }

  /** The state of a nagged run: staged, with `count` messages collected. */
  ghost predicate OnTrack(cfg: Cfg, env: Env, t: Trace, count: nat) {
    && t.m.state.Requested?
    && t.m.state.r.depositRequestTxid == cfg.depositRequestTxid
    && RequestOk(cfg, env, t.m.state.r, t.m.pog, t.duties)
    && Staged(cfg, t.m.state.r, t.duties)
    && Collected(cfg, t.m.state.r) == count
  }

  lemma MessageKeepsRequest(cfg: Cfg, m: Machine, ev: Event)
    requires m.state.Requested? && IsMessage(ev)
    ensures var s' := Step(cfg, m, ev).0.state;
      s'.Requested? && s'.r.depositRequestTxid == m.state.r.depositRequestTxid
  {
    hide SetupGraphs, SetupCache, SigningDuties, SessionsFull, Sorted, CanAggregate, ByClaim, AggregateSigs;
    hide VerifyPartials, Sum, InTableOrder;
    hide AggregateNonces, Contribute, Unpacks, Owners, NoContributions, Summaries, ClaimsOf;
  }

  /** Each nagged message that is accepted adds exactly one contribution, stage by stage. */
  lemma NaggedMessageProgress(cfg: Cfg, env: Env, staked: set<OpKey>, txid: Txid, t: Trace, ev: Event, count: nat,
                              stage: nat, req: NagRequest)
    requires CfgOk(cfg, env) && RequestIsNoClaim(cfg) && OnTrack(cfg, env, t, count)
    requires Admissible(cfg, env, t, ev) && Accepted(cfg, t.m, ev) && Answers(t.m.state.r, req, ev)
    requires Missing(stage, req, cfg.table.Keys(), txid, View(staked, t.m.state))
    requires EarlierDone(stage, cfg.table.Keys(), txid, View(staked, t.m.state))
    ensures OnTrack(cfg, env, Next(cfg, t, ev), count + 1)
  {
    hide RequestOk, Staged, Setup, AddNonces, AddPartials, AddRootNonce, AddRootPartial, SigsComplete, Asked, Collected;
    hide GraphsWellFormed, VerifiedPartialsAggregate, StageDone, EarlierDone, RequestIsNoClaim, NoncesFull;
    hide PartialsFull, Complete, Fresh;
    var r, pog := t.m.state.r, t.m.pog;
    MessageGood(cfg, env, t, ev);
    MessageKeepsRequest(cfg, t.m, ev);
    if stage < 2 {
      SetupStage(cfg, env, r, pog, t.duties, staked, txid, stage, req);
      SetupProgress(cfg, env, r, pog, t.duties, ev);
    } else {
      StageFacts(cfg, env, r, pog, t.duties, staked, txid, stage);
      if stage == 2 {
        MissingNotFull(cfg, env, r, pog, t.duties, req);
        NoncesProgress(cfg, env, r, pog, t.duties, ev);
      } else if stage == 3 {
        MissingNotFull(cfg, env, r, pog, t.duties, req);
        PartialsProgress(cfg, env, r, pog, t.duties, ev);
      } else {
        SessionIsNoClaim(cfg, r);
        RootPart(cfg, env, r, pog, t.duties);
        if stage == 4 {
          NotAllYet(cfg, r.rootNonces, req.operator);
          RootNonceProgress(cfg, env, r, pog, t.duties, ev);
        } else {
          NotAllYet(cfg, r.rootPartials, req.operator);
          KeysSize(cfg, r.rootNonces);
          RootSigProgress(cfg, env, r, pog, t.duties, ev);
        }
      }
    }
  }

  lemma SessionIsNoClaim(cfg: Cfg, r: Request)
    requires RequestIsNoClaim(cfg) && Complete(cfg, r) && r.depositRequestTxid == cfg.depositRequestTxid
    ensures r.depositRequestTxid !in r.claimTxids.Values
  {
    forall op | op in r.claimTxids ensures r.claimTxids[op] != cfg.depositRequestTxid {
      assert ClaimOpen(cfg, r, op);
    }
  }

  lemma NotAllYet<V>(cfg: Cfg, contributions: map<OpKey, V>, op: OpKey)
    requires cfg.table.Valid() && op in cfg.table.Keys() && op !in contributions
    ensures contributions.Keys <= cfg.table.Keys() ==> |contributions| != cfg.table.Size()
  {
    KeyFacts(cfg.table);
    if contributions.Keys <= cfg.table.Keys() && |contributions.Keys| == cfg.table.Size() {
      SubsetOfSameSize(contributions.Keys, cfg.table.Keys());
    }
  }

  lemma KeysSize<V>(cfg: Cfg, contributions: map<OpKey, V>)
    requires cfg.table.Valid() && contributions.Keys == cfg.table.Keys()
    ensures |contributions| == cfg.table.Size()
  {
    KeyFacts(cfg.table);
    assert |contributions| == |contributions.Keys|;
  }

  lemma MissingNotFull(cfg: Cfg, env: Env, r: Request, pog: map<Txid, Graph>, duties: seq<Duty>, req: NagRequest)
    requires cfg.table.Valid() && RequestOk(cfg, env, r, pog, duties) && Complete(cfg, r)
    ensures req.NoncesFor? && ClaimMissing(cfg.table.Keys(), r.claimTxids, r.graphNonces, req.session, req.operator)
      ==> !NoncesFull(cfg, r)
    ensures req.SignaturesFor?
      && ClaimMissing(cfg.table.Keys(), r.claimTxids, r.graphPartials, req.session, req.operator)
      ==> !PartialsFull(cfg, r)
  {
    hide RequestOk, Complete, SessionsOk, SessionsFull, ClaimMissing;
    SessionsPart(cfg, env, r, pog, duties);
    forall op | op in r.claimTxids
      ensures r.claimTxids[op] in r.graphNonces && r.graphNonces[r.claimTxids[op]].Keys <= cfg.table.Keys()
      ensures r.claimTxids[op] in r.graphPartials && r.graphPartials[r.claimTxids[op]].Keys <= cfg.table.Keys()
    {
      SessionsWithin(cfg, env, r, op);
    }
    NothingMissingIffFull(cfg, r.claimTxids, r.graphNonces);
    NothingMissingIffFull(cfg, r.claimTxids, r.graphPartials);
  }

  /** A block below the deadline changes nothing but the height. */
  lemma BlockIsIdle(cfg: Cfg, env: Env, t: Trace, height: Height, count: nat)
    requires OnTrack(cfg, env, t, count) && height < t.m.state.r.abortDeadline
    ensures OnTrack(cfg, env, Next(cfg, t, Block(height)), count)
  {
    hide RequestOk, Staged, Collected;
    NothingNew(t.duties);
  }

  lemma NagStepProgress(cfg: Cfg, env: Env, staked: set<OpKey>, txid: Txid, t: Trace, ev: Event, count: nat)
    requires CfgOk(cfg, env) && RequestIsNoClaim(cfg) && OnTrack(cfg, env, t, count)
    requires NagStep(cfg, env, staked, txid, t, ev)
    ensures OnTrack(cfg, env, Next(cfg, t, ev), count + if ev.Block? then 0 else 1)
  {
    hide CfgOk, RequestOk, Staged, Collected, Admissible, Accepted, RequestIsNoClaim, Missing, EarlierDone, Next;
    if ev.Block? && ev.height < t.m.state.r.abortDeadline {
      BlockIsIdle(cfg, env, t, ev.height, count);
    } else {
      var req :| Nagged(req, cfg.table.Keys(), txid, View(staked, t.m.state)) && Answers(t.m.state.r, req, ev);
      var stage: nat :| Missing(stage, req, cfg.table.Keys(), txid, View(staked, t.m.state))
                        && EarlierDone(stage, cfg.table.Keys(), txid, View(staked, t.m.state));
      NaggedMessageProgress(cfg, env, staked, txid, t, ev, count, stage, req);
    }
  }

  lemma InitiallyOnTrack(cfg: Cfg, env: Env, height: Height, deadline: Height)
    requires CfgOk(cfg, env)
    ensures OnTrack(cfg, env, Trace(InitialState(cfg, height, deadline), []), 0)
  {
    hide RequestOk, GraphsWellFormed, VerifiedPartialsAggregate;
    InitialGood(cfg, env, height, deadline);
    var r := InitialState(cfg, height, deadline).state.r;
    KeyFacts(cfg.table);
    assert Fresh(r);
    FreshCounts(cfg, r);
    SmallIsNotComplete(cfg, r);
  }

  lemma {:induction false} NaggedRunOnTrack(cfg: Cfg, env: Env, staked: set<OpKey>, txid: Txid, height: Height,
      deadline: Height, evs: seq<Event>)
    requires CfgOk(cfg, env) && RequestIsNoClaim(cfg) && NaggedRun(cfg, env, staked, txid, height, deadline, evs)
    ensures OnTrack(cfg, env, Exec(cfg, height, deadline, evs), Messages(evs))
    decreases |evs|
  {
    hide CfgOk, OnTrack, NagStep, RequestIsNoClaim, InitialState, Next;
    if evs == [] {
      InitiallyOnTrack(cfg, env, height, deadline);
    } else {
      var front := evs[..|evs| - 1];
      NaggedRunOnTrack(cfg, env, staked, txid, height, deadline, front);
      NagStepProgress(cfg, env, staked, txid, Exec(cfg, height, deadline, front), evs[|evs| - 1], Messages(front));
    }
  }

  /** As long as some message of some stage is missing, one is nagged for. */
  lemma {:induction false} SomethingNagged(stage: nat, req: NagRequest, want: set<OpKey>, txid: Txid, c: Tracked)
    requires Missing(stage, req, want, txid, c)
    ensures exists q :: Nagged(q, want, txid, c)
    decreases stage
  {
    if EarlierDone(stage, want, txid, c) {
      assert Nagged(req, want, txid, c);
    } else {
      var k: nat :| k < stage && !StageDone(k, want, txid, c);
      var q :| Missing(k, q, want, txid, c);
      SomethingNagged(k, q, want, txid, c);
    }
  }

  /** Without every operator's deposit signature there is something to nag for; with them, nothing. */
  lemma NagsUntilSigned(cfg: Cfg, env: Env, r: Request, pog: map<Txid, Graph>, duties: seq<Duty>, staked: set<OpKey>,
      txid: Txid)
    requires cfg.table.Valid() && RequestOk(cfg, env, r, pog, duties) && Staged(cfg, r, duties)
    ensures |r.rootPartials| == cfg.table.Size()
      <==> forall req :: !Nagged(req, cfg.table.Keys(), txid, View(staked, Requested(r)))
  {
    hide RequestOk, Staged, Nagged, Complete, SigsComplete, Asked, Signed;
    RootPart(cfg, env, r, pog, duties);
    if |r.rootPartials| != cfg.table.Size() {
      LastStageMissing(cfg, r, staked, txid);
    } else {
      EveryoneContributed(cfg, r.rootPartials);
      SessionsPart(cfg, env, r, pog, duties);
      AllStagesDone(cfg, env, r, duties, staked, txid);
    }
  }

  lemma PublishedMeans(cfg: Cfg, r: Request, duties: seq<Duty>)
    requires Staged(cfg, r, duties)
    ensures Published(duties) <==> |r.rootPartials| == cfg.table.Size()
    ensures RootVerified(cfg, r)
  {
    hide Complete, NoncesFull, PartialsFull, Asked, Published, RootVerified;
  }

  /** A fresh contract fed only nagged messages (and blocks below the abort deadline) publishes its deposit with
      exactly the (2n^2 + 3n)-th accepted message; before that there is always a message to nag for, after it none. */
  lemma NaggingReachesDeposit(cfg: Cfg, env: Env, staked: set<OpKey>, txid: Txid, height: Height, deadline: Height,
      evs: seq<Event>)
    requires CfgOk(cfg, env) && RequestIsNoClaim(cfg) && NaggedRun(cfg, env, staked, txid, height, deadline, evs)
    ensures var t := Exec(cfg, height, deadline, evs); var total := AllMessages(cfg.table.Size());
      && Messages(evs) <= total
      && (Published(t.duties) <==> Messages(evs) == total)
      && (Published(t.duties) <==> forall req :: !Nagged(req, cfg.table.Keys(), txid, View(staked, t.m.state)))
      && t.m.state.Requested? && RootVerified(cfg, t.m.state.r)
  {
    hide RequestOk, Staged, Exec, NaggedRun, RootVerified, RequestIsNoClaim, Collected, Nagged, GraphsWellFormed;
    hide VerifiedPartialsAggregate;
    hide AllMessages, Published, Messages;
    var t := Exec(cfg, height, deadline, evs);
    NaggedRunOnTrack(cfg, env, staked, txid, height, deadline, evs);
    var r := t.m.state.r;
    AllCollectedIff(cfg, env, r, t.m.pog, t.duties);
    PublishedMeans(cfg, r, t.duties);
    NagsUntilSigned(cfg, env, r, t.m.pog, t.duties, staked, txid);
  }

  lemma LastStageMissing(cfg: Cfg, r: Request, staked: set<OpKey>, txid: Txid)
    requires cfg.table.Valid() && r.rootPartials.Keys <= cfg.table.Keys() && |r.rootPartials| != cfg.table.Size()
    ensures exists q :: Nagged(q, cfg.table.Keys(), txid, View(staked, Requested(r)))
  {
    hide Nagged;
    KeyFacts(cfg.table);
    assert |r.rootPartials| == |r.rootPartials.Keys|;
    assert r.rootPartials.Keys != cfg.table.Keys();
    var op :| op in cfg.table.Keys() && op !in r.rootPartials;
    SomethingNagged(5, SignaturesFor(r.depositRequestTxid, op), cfg.table.Keys(), txid, View(staked, Requested(r)));
  }

  lemma NothingLeftToAsk(r: Request, want: set<OpKey>, staked: set<OpKey>, txid: Txid)
    requires want <= r.inputs.Keys && want <= r.rootNonces.Keys && want <= r.rootPartials.Keys
    requires forall claim, op :: !ClaimMissing(want, r.claimTxids, r.graphNonces, claim, op)
    requires forall claim, op :: !ClaimMissing(want, r.claimTxids, r.graphPartials, claim, op)
    ensures forall req :: !Nagged(req, want, txid, View(staked, Requested(r)))
  {
    hide ClaimMissing;
    forall k: nat, req ensures !Missing(k, req, want, txid, View(staked, Requested(r))) {
    }
  }

  lemma AllStagesDone(cfg: Cfg, env: Env, r: Request, duties: seq<Duty>, staked: set<OpKey>, txid: Txid)
    requires cfg.table.Valid() && SessionsOk(cfg, env, r) && Staged(cfg, r, duties)
    requires r.rootNonces.Keys == r.rootPartials.Keys == cfg.table.Keys()
    ensures forall req :: !Nagged(req, cfg.table.Keys(), txid, View(staked, Requested(r)))
  {
    hide SessionsOk, Complete, SessionsFull, Asked, Published, ClaimMissing, Nagged, RootVerified, View;
    NoEmptyTable(cfg);
    KeysSize(cfg, r.rootNonces);
    CompleteInputs(cfg, r);
    forall op | op in r.claimTxids
      ensures r.claimTxids[op] in r.graphNonces && r.graphNonces[r.claimTxids[op]].Keys <= cfg.table.Keys()
      ensures r.claimTxids[op] in r.graphPartials && r.graphPartials[r.claimTxids[op]].Keys <= cfg.table.Keys()
    {
      SessionsWithin(cfg, env, r, op);
    }
    NothingMissingIffFull(cfg, r.claimTxids, r.graphNonces);
    NothingMissingIffFull(cfg, r.claimTxids, r.graphPartials);
    NothingLeftToAsk(r, cfg.table.Keys(), staked, txid);
  }

  // ---------- nothing but cryptography stands in the way ----------

  /** The check a message has to pass: the right length, and for signatures that they verify against the signer's
      own nonce and the aggregate of all operators' nonces. */
  ghost predicate Passes(cfg: Cfg, env: Env, r: Request, ev: Event) {
    match ev
    case GraphNonces(_, _, nonces) => Unpacks(nonces)
    case GraphSigs(signer, claim, partials) =>
      && Unpacks(partials)
      && exists op :: op in r.inputs && ClaimOf(cfg, r.inputs[op]) == claim && SigPasses(cfg, env, r, op, ev)
    case RootSig(signer, partial) =>
      signer in r.rootNonces && cfg.verifyRoot(RootCheck(signer, r.rootNonces[signer], Sum(r.rootNonces), partial))
    case _ => true
  }

  ghost predicate SigPasses(cfg: Cfg, env: Env, r: Request, op: OpKey, ev: Event)
    requires ev.GraphSigs? && op in r.inputs
  {
    var nonces := AllNonces(cfg, env, ev.claim);
    ev.signer in nonces
    && cfg.verifyGraph(GraphCheck(ev.signer, cfg.buildGraph(r.inputs[op]), nonces[ev.signer], Sum(nonces), ev.partials))
  }

  lemma NoncesAcceptedIff(cfg: Cfg, env: Env, r: Request, pog: map<Txid, Graph>, duties: seq<Duty>, ev: Event)
    requires CfgOk(cfg, env) && RequestOk(cfg, env, r, pog, duties)
    requires ev.GraphNonces? && ev.signer in cfg.table.Keys() && ev.nonces == env.nonces(NonceId(ev.signer, ev.claim))
    requires ev.claim in r.graphNonces && ev.signer !in r.graphNonces[ev.claim]
    ensures AddNonces(cfg, r, pog, ev).2.Ok? && AddNonces(cfg, r, pog, ev).0 != r <==> Unpacks(ev.nonces)
  {
    hide CfgOk, RequestOk, Unpacks, SigningDuties, SessionsFull, Sorted, AggregateNonces;
    NoncesGood(cfg, env, r, pog, duties, ev);
    assert ev.signer in WithNonces(r, ev).graphNonces[ev.claim];
  }

  lemma VerdictIff(cfg: Cfg, env: Env, r: Request, ev: Event, op: OpKey)
    requires CfgOk(cfg, env) && SessionsOk(cfg, env, r) && Complete(cfg, r) && NoncesFull(cfg, r) && ev.GraphSigs?
    requires ev.signer in cfg.table.Keys() && op in r.inputs && ClaimOf(cfg, r.inputs[op]) == ev.claim
    requires forall o | o in r.claimTxids :: r.claimTxids[o] in r.aggNonces
    ensures VerifyPartials(cfg, r, ev, cfg.buildGraph(r.inputs[op])).None? <==> SigPasses(cfg, env, r, op, ev)
  {
    hide CfgOk, PartialsOk, SigOk, Sum;
    assert ClaimOpen(cfg, r, op);
    assert NoncesOk(cfg, env, ev.claim, r.graphNonces[ev.claim]);
    FullSession(cfg, env, ev.claim, r.graphNonces[ev.claim]);
  }

  lemma PartialsAcceptedIff(cfg: Cfg, env: Env, r: Request, pog: map<Txid, Graph>, duties: seq<Duty>, ev: Event)
    requires CfgOk(cfg, env) && RequestOk(cfg, env, r, pog, duties) && Staged(cfg, r, duties)
    requires Complete(cfg, r) && NoncesFull(cfg, r) && ev.GraphSigs? && ev.signer in cfg.table.Keys()
    requires ev.claim in r.graphPartials && ev.signer !in r.graphPartials[ev.claim]
    ensures AddPartials(cfg, r, pog, ev).1.Ok? && AddPartials(cfg, r, pog, ev).0 != r <==> Passes(cfg, env, r, ev)
  {
    hide CfgOk, InputsOk, CacheOk, SessionsOk, RootOk, Fresh, Complete, SessionsFull, AggregateAll, Unpacks;
    hide VerifyPartials, Owners;
    hide SigPasses, Asked, Published;
    PartialsGood(cfg, env, r, pog, duties, ev);
    var op := OwnerFound(cfg, env, r, pog, ev.claim);
    VerdictIff(cfg, env, r, ev, op);
    forall o | o in r.inputs && ClaimOf(cfg, r.inputs[o]) == ev.claim ensures o == op {
      ClaimsDistinct(cfg, env, r.inputs, o, op);
    }
    StoredIsNew(cfg, r, pog, ev);
  }

  lemma StoredIsNew(cfg: Cfg, r: Request, pog: map<Txid, Graph>, ev: Event)
    requires ev.GraphSigs? && ev.claim in r.graphPartials && ev.signer !in r.graphPartials[ev.claim]
    ensures WithPartials(r, ev) != r && AggregateAll(cfg, WithPartials(r, ev), pog).0 != r
  {
    hide ByClaim, Sorted, CanAggregate, AggregateSigs;
    assert ev.signer in WithPartials(r, ev).graphPartials[ev.claim];
  }

  /** In a nagged run every answer to a nag is accepted if and only if it passes its cryptographic check. */
  lemma NaggedAcceptedIff(cfg: Cfg, env: Env, staked: set<OpKey>, txid: Txid, t: Trace, ev: Event, count: nat,
                          stage: nat, req: NagRequest)
    requires CfgOk(cfg, env) && RequestIsNoClaim(cfg) && OnTrack(cfg, env, t, count)
    requires Admissible(cfg, env, t, ev) && Answers(t.m.state.r, req, ev)
    requires Missing(stage, req, cfg.table.Keys(), txid, View(staked, t.m.state))
    requires EarlierDone(stage, cfg.table.Keys(), txid, View(staked, t.m.state))
    ensures Accepted(cfg, t.m, ev) <==> Passes(cfg, env, t.m.state.r, ev)
  {
    hide RequestOk, Setup, AddNonces, AddPartials, AddRootPartial, SigsComplete, Asked, Collected, SigPasses;
    hide Unpacks, Sum;
    hide GraphsWellFormed, VerifiedPartialsAggregate, StageDone, EarlierDone, RequestIsNoClaim, SessionsFull;
    hide Complete, Fresh, Published;
    var r, pog := t.m.state.r, t.m.pog;
    if stage < 2 {
      SetupStage(cfg, env, r, pog, t.duties, staked, txid, stage, req);
      SetupStores(cfg, r, pog, ev);
    } else {
      StageFacts(cfg, env, r, pog, t.duties, staked, txid, stage);
      SessionsPart(cfg, env, r, pog, t.duties);
      if stage == 2 {
        ClaimHasSessions(cfg, env, r, req.session);
        NoncesAcceptedIff(cfg, env, r, pog, t.duties, ev);
      } else if stage == 3 {
        ClaimHasSessions(cfg, env, r, req.session);
        PartialsAcceptedIff(cfg, env, r, pog, t.duties, ev);
      } else {
        SessionIsNoClaim(cfg, r);
        if stage == 4 {
          assert AddRootNonce(cfg, r, ev).0.rootNonces != r.rootNonces;
        } else {
          RootSigAcceptedIff(cfg, r, ev);
        }
      }
    }
  }

  lemma SetupStores(cfg: Cfg, r: Request, pog: map<Txid, Graph>, ev: Event)
    requires ev.DepositSetup? && ev.op !in r.inputs
    ensures Setup(cfg, r, pog, ev).0 != r
  {
    hide Install, SetupGraphs, SetupCache, NonceDuties;
    var r1 := r.(inputs := WithInput(r.inputs, ev));
    assert ev.op in r1.inputs;
    InstallFrame(r1, SetupGraphs(cfg, pog, r1.inputs));
  }

  lemma ClaimHasSessions(cfg: Cfg, env: Env, r: Request, claim: Txid)
    requires SessionsOk(cfg, env, r) && Complete(cfg, r) && claim in r.claimTxids.Values
    ensures claim in r.graphNonces && claim in r.graphPartials
  {
    hide SessionsOk, Complete;
    var op :| op in r.claimTxids && r.claimTxids[op] == claim;
    SessionsWithin(cfg, env, r, op);
  }

  lemma RootSigAcceptedIff(cfg: Cfg, r: Request, ev: Event)
    requires ev.RootSig? && ev.signer in cfg.table.Keys() && ev.signer in r.rootNonces && ev.signer !in r.rootPartials
    ensures AddRootPartial(cfg, r, ev).1.Ok? && AddRootPartial(cfg, r, ev).0 != r
      <==> cfg.verifyRoot(RootCheck(ev.signer, r.rootNonces[ev.signer], Sum(r.rootNonces), ev.partial))
  {
    hide Sum, InTableOrder;
    assert ev.signer in r.rootPartials[ev.signer := ev.partial];
  }
}
