/** With operators that answer nags honestly a deposit can always be completed: no reachable state is a dead end. */
module ContractLiveness {
  import opened Collections
  import opened ContractTypes
  import opened ContractSpec
  import opened ContractInvariant
  import opened Nag
  import opened ContractProgress

  /** Every operator can sign every graph: some partial signatures verify against its own and everyone's nonces. */
  ghost predicate CanSignGraphs(cfg: Cfg, env: Env) {
    forall signer: OpKey, graph: Graph, claim: Txid | signer in cfg.table.Keys() ::
      CanSignGraph(cfg, env, signer, graph, claim)
  }

  ghost predicate CanSignGraph(cfg: Cfg, env: Env, signer: OpKey, graph: Graph, claim: Txid) {
    exists p :: SignsGraph(cfg, env, signer, graph, claim, p)
  }

  ghost predicate SignsGraph(cfg: Cfg, env: Env, signer: OpKey, graph: Graph, claim: Txid, p: Partials) {
    var nonces := AllNonces(cfg, env, claim);
    Unpacks(p) && signer in nonces && cfg.verifyGraph(GraphCheck(signer, graph, nonces[signer], Sum(nonces), p))
  }

  ghost predicate CanSignDeposit(cfg: Cfg) {
    forall signer: OpKey, nonce: Nonce, agg: multiset<Nonce> :: CanSignWith(cfg, signer, nonce, agg)
  }

  ghost predicate CanSignWith(cfg: Cfg, signer: OpKey, nonce: Nonce, agg: multiset<Nonce>) {
    exists p :: SignsDepositWith(cfg, signer, nonce, agg, p)
  }

  ghost predicate SignsDepositWith(cfg: Cfg, signer: OpKey, nonce: Nonce, agg: multiset<Nonce>, p: Partial) {
    cfg.verifyRoot(RootCheck(signer, nonce, agg, p))
  }

  ghost predicate Honest(cfg: Cfg, env: Env) {
    && (forall id: NonceId :: Unpacks(env.nonces(id)))
    && CanSignGraphs(cfg, env) && CanSignDeposit(cfg)
  }

  /** What a missing message asks for. */
  lemma MissingMeans(stage: nat, req: NagRequest, want: set<OpKey>, txid: Txid, staked: set<OpKey>, r: Request)
    requires Missing(stage, req, want, txid, View(staked, Requested(r)))
    ensures stage < 6 && !req.StakeChainExchange? && req.operator in want
    ensures stage < 2 ==> req.SetupFor?
    ensures stage == 2 ==> req.NoncesFor? && req.session in r.claimTxids.Values
    ensures stage == 3 ==> req.SignaturesFor? && req.session in r.claimTxids.Values
    ensures stage == 4 ==> req.NoncesFor? && req.session == r.depositRequestTxid
    ensures stage == 5 ==> req.SignaturesFor? && req.session == r.depositRequestTxid
  {
  }

  lemma StakeKnown(cfg: Cfg, env: Env, op: OpKey)
    requires CfgOk(cfg, env) && op in cfg.table.Keys()
    ensures op in env.stake
  {
    hide GraphsWellFormed, VerifiedPartialsAggregate;
  }

  /** Some message answers the nag, may be sent and passes its check. */
  lemma HonestAnswer(cfg: Cfg, env: Env, staked: set<OpKey>, txid: Txid, t: Trace, count: nat, stage: nat,
      req: NagRequest)
    returns (ev: Event)
    requires CfgOk(cfg, env) && RequestIsNoClaim(cfg) && Honest(cfg, env) && OnTrack(cfg, env, t, count)
    requires Missing(stage, req, cfg.table.Keys(), txid, View(staked, t.m.state))
    requires EarlierDone(stage, cfg.table.Keys(), txid, View(staked, t.m.state))
    ensures Answers(t.m.state.r, req, ev) && Admissible(cfg, env, t, ev) && Passes(cfg, env, t.m.state.r, ev)
    ensures !ev.Block?
  {
    hide GraphsWellFormed, VerifiedPartialsAggregate, RequestOk, Staged, Collected, EarlierDone, CanSignGraphs;
    hide CanSignDeposit;
    hide RequestIsNoClaim, Unpacks, Asked, Sum, AllNonces, Missing, View, Complete, NoncesFull, PartialsFull;
    hide SigPasses, ClaimOf;
    var r := t.m.state.r;
    MissingMeans(stage, req, cfg.table.Keys(), txid, staked, r);
    if stage < 2 {
      StakeKnown(cfg, env, req.operator);
      ev := DepositSetup(req.operator, 0, 0, env.stake[req.operator], 0);
    } else {
      StageFacts(cfg, env, r, t.m.pog, t.duties, staked, txid, stage);
      if stage == 2 {
        ev := GraphNonces(req.operator, req.session, env.nonces(NonceId(req.operator, req.session)));
      } else if stage == 3 {
        ev := HonestGraphSigs(cfg, env, r, req);
      } else {
        SessionIsNoClaim(cfg, r);
        if stage == 4 {
          ev := RootNonce(req.operator, 0);
          FullMeansAsked(cfg, r, t.duties);
        } else {
          ev := HonestRootSig(cfg, r, req);
        }
      }
    }
  }

  lemma FullMeansAsked(cfg: Cfg, r: Request, duties: seq<Duty>)
    requires Staged(cfg, r, duties) && Complete(cfg, r) && PartialsFull(cfg, r)
    ensures Asked(duties)
  {
    hide Complete, SessionsFull, Asked, Published;
  }

  lemma HonestGraphSigs(cfg: Cfg, env: Env, r: Request, req: NagRequest) returns (ev: Event)
    requires CanSignGraphs(cfg, env) && Complete(cfg, r) && req.SignaturesFor? && req.operator in cfg.table.Keys()
    requires req.session in r.claimTxids.Values
    ensures ev.GraphSigs? && ev.signer == req.operator && ev.claim == req.session && Passes(cfg, env, r, ev)
  {
    hide Complete, Sum, AllNonces, Unpacks;
    var op :| op in r.claimTxids && r.claimTxids[op] == req.session;
    InputsOfClaims(cfg, r, op);
    var graph := cfg.buildGraph(r.inputs[op]);
    assert CanSignGraph(cfg, env, req.operator, graph, req.session);
    var p :| SignsGraph(cfg, env, req.operator, graph, req.session, p);
    ev := GraphSigs(req.operator, req.session, p);
    assert SigPasses(cfg, env, r, op, ev);
  }

  lemma InputsOfClaims(cfg: Cfg, r: Request, op: OpKey)
    requires Complete(cfg, r) && op in r.claimTxids
    ensures op in r.inputs && ClaimOf(cfg, r.inputs[op]) == r.claimTxids[op]
  {
    assert ClaimOpen(cfg, r, op);
  }

  lemma HonestRootSig(cfg: Cfg, r: Request, req: NagRequest) returns (ev: Event)
    requires CanSignDeposit(cfg) && r.rootNonces.Keys == cfg.table.Keys() && req.SignaturesFor?
    requires req.operator in cfg.table.Keys()
    ensures ev.RootSig? && ev.signer == req.operator
    ensures ev.signer in r.rootNonces
    ensures cfg.verifyRoot(RootCheck(ev.signer, r.rootNonces[ev.signer], Sum(r.rootNonces), ev.partial))
  {
    hide Sum;
    assert CanSignWith(cfg, req.operator, r.rootNonces[req.operator], Sum(r.rootNonces));
    var p :| SignsDepositWith(cfg, req.operator, r.rootNonces[req.operator], Sum(r.rootNonces), p);
    ev := RootSig(req.operator, p);
  }

  /** Short of the last message, a nagged run can be continued. */
  lemma CanContinue(cfg: Cfg, env: Env, staked: set<OpKey>, txid: Txid, height: Height, deadline: Height,
      evs: seq<Event>)
    returns (ev: Event)
    requires CfgOk(cfg, env) && RequestIsNoClaim(cfg) && Honest(cfg, env)
    requires NaggedRun(cfg, env, staked, txid, height, deadline, evs) && Messages(evs) < AllMessages(cfg.table.Size())
    ensures NaggedRun(cfg, env, staked, txid, height, deadline, evs + [ev]) && Messages(evs + [ev]) == Messages(evs) + 1
  {
    hide CfgOk, RequestIsNoClaim, Honest, Exec, OnTrack, Missing, EarlierDone, Admissible, Accepted, Passes;
    hide AllMessages, Answers;
    var t := Exec(cfg, height, deadline, evs);
    NaggedRunOnTrack(cfg, env, staked, txid, height, deadline, evs);
    NaggingReachesDeposit(cfg, env, staked, txid, height, deadline, evs);
    var req :| Nagged(req, cfg.table.Keys(), txid, View(staked, t.m.state));
    var stage: nat :| Missing(stage, req, cfg.table.Keys(), txid, View(staked, t.m.state))
                      && EarlierDone(stage, cfg.table.Keys(), txid, View(staked, t.m.state));
    ev := HonestAnswer(cfg, env, staked, txid, t, Messages(evs), stage, req);
    NaggedAcceptedIff(cfg, env, staked, txid, t, ev, Messages(evs), stage, req);
    assert NagStep(cfg, env, staked, txid, t, ev);
    assert (evs + [ev])[..|evs + [ev]| - 1] == evs;
  }

  /** From a fresh contract honest operators reach the deposit: a nagged run of exactly 2n^2 + 3n messages exists, and
      every shorter nagged run extends to one. */
  lemma {:induction false} CanFinish(cfg: Cfg, env: Env, staked: set<OpKey>, txid: Txid, height: Height,
      deadline: Height, evs: seq<Event>)
    returns (all: seq<Event>)
    requires CfgOk(cfg, env) && RequestIsNoClaim(cfg) && Honest(cfg, env)
    requires NaggedRun(cfg, env, staked, txid, height, deadline, evs)
    ensures evs <= all && NaggedRun(cfg, env, staked, txid, height, deadline, all)
    ensures Messages(all) == AllMessages(cfg.table.Size()) && Published(Exec(cfg, height, deadline, all).duties)
    decreases AllMessages(cfg.table.Size()) - Messages(evs)
  {
    hide CfgOk, RequestIsNoClaim, Honest, Exec, NagStep, Nagged, AllMessages, Published, Messages;
    NaggingReachesDeposit(cfg, env, staked, txid, height, deadline, evs);
    if Messages(evs) == AllMessages(cfg.table.Size()) {
      all := evs;
    } else {
      var ev := CanContinue(cfg, env, staked, txid, height, deadline, evs);
      all := CanFinish(cfg, env, staked, txid, height, deadline, evs + [ev]);
    }
  }

  /** What is proved of admissible runs applies to nagged ones. */
  lemma {:induction false} NaggedIsAdmissible(cfg: Cfg, env: Env, staked: set<OpKey>, txid: Txid, height: Height,
      deadline: Height, evs: seq<Event>)
    requires NaggedRun(cfg, env, staked, txid, height, deadline, evs)
    ensures AdmissibleRun(cfg, env, height, deadline, evs)
    decreases |evs|
  {
    hide Admissible, AnswersNag, Accepted, Exec;
    if evs != [] { NaggedIsAdmissible(cfg, env, staked, txid, height, deadline, evs[..|evs| - 1]); }
  }
}
