/** Bridges of any size for which all promises hold, and the runs that show where a property fails. */
module ContractExamples {
  import opened Collections
  import opened ContractTypes
  import opened ContractSpec
  import opened ContractCache
  import opened ContractInvariant
  import opened ContractSafety
  import opened ContractSigning
  import opened ContractRejections
  import opened ContractRuns
  import opened ContractRoot
  import opened ContractRootRuns
  import opened Nag
  import opened ContractProgress
  import opened ContractLiveness

  // ---------- a bridge of n operators ----------

  /** Operator `i` has index, keys and stake txid `i`; this node is operator 0. */
  function SampleTable(n: nat): OperatorTable {
    OperatorTable(0, seq(n, (i: nat) => Operator(i, i, i)))
  }

  function SampleGraph(x: GraphInput): Graph {
    Graph(Summary(x.stakeTxid, x.stakeTxid + 100, 0, 0, seq(NUM_ASSERT_DATA_TX, i => i), 0, 0), x.wotsKeys)
  }

  /** The only vector accepted from a signer, given the nonces it is checked against. */
  function SampleSignature(signer: OpKey, nonces: Nonces, aggNonces: multiset<Nonces>): Partials {
    [signer, |nonces|, |aggNonces|] + seq(48, i => 0)
  }

  predicate SampleAggregates(c: AggregateCheck) {
    forall op | op in c.partials ::
      |c.partials[op]| == 51 && c.partials[op][0] == op && c.partials[op][2] == |c.aggNonces|
  }

  function SampleCfg(n: nat): Cfg {
    Cfg(SampleTable(n), 0, 1, 2, 0, 0, 0, false, x => SampleGraph(x),
        (c: GraphCheck) => c.partials == SampleSignature(c.signer, c.nonces, c.aggNonces), c => SampleAggregates(c),
        (c: RootCheck) => c.partial == c.signer + c.nonce + |c.aggNonce|, c => true, tx => Some(0), b => Some(0))
  }

  function SampleEnv(n: nat): Env {
    var own := map op | op in Below(n) :: op;
    Env(own, own, (id: NonceId) => [id.op, id.claim] + seq(49, i => 0))
  }

  lemma SampleTableValid(n: nat)
    requires n > 0
    ensures SampleTable(n).Valid() && SampleTable(n).Keys() == Below(n) && SampleTable(n).PovKey() == 0
  {
    var t := SampleTable(n);
    forall i: nat | i < n ensures i in t.Keys() { assert t.operators[i] in t.operators; }
    assert t.operators[0] in t.operators;
  }

  lemma SampleGraphsWellFormed(n: nat)
    ensures GraphsWellFormed(SampleCfg(n)) && RequestIsNoClaim(SampleCfg(n))
  {
  }

  lemma SampleAggregatesVerified(n: nat)
    ensures VerifiedPartialsAggregate(SampleCfg(n))
  {
    hide Sum, SampleTable;
    var cfg := SampleCfg(n);
    forall graph: Graph, nonces: map<OpKey, Nonces>, partials: map<OpKey, Partials>
      | AllVerified(cfg, graph, nonces, partials) && nonces.Keys == cfg.table.Keys() == partials.Keys
      ensures cfg.aggregates(AggregateCheck(graph, Sum(nonces), partials))
    {
      forall op | op in partials ensures partials[op] == SampleSignature(op, nonces[op], Sum(nonces)) { }
    }
  }

  lemma SampleIsOk(n: nat)
    requires n > 0
    ensures CfgOk(SampleCfg(n), SampleEnv(n)) && RequestIsNoClaim(SampleCfg(n))
  {
    hide GraphsWellFormed, VerifiedPartialsAggregate, RequestIsNoClaim;
    SampleTableValid(n);
    SampleGraphsWellFormed(n);
    SampleAggregatesVerified(n);
  }

  lemma SampleIsHonest(n: nat)
    requires n > 0
    ensures Honest(SampleCfg(n), SampleEnv(n))
  {
    hide Sum, SampleTable;
    var cfg, env := SampleCfg(n), SampleEnv(n);
    forall signer: OpKey, graph: Graph, claim: Txid | signer in cfg.table.Keys()
      ensures CanSignGraph(cfg, env, signer, graph, claim)
    {
      var nonces := AllNonces(cfg, env, claim);
      assert SignsGraph(cfg, env, signer, graph, claim, SampleSignature(signer, nonces[signer], Sum(nonces)));
    }
    forall signer: OpKey, nonce: Nonce, agg: multiset<Nonce> ensures CanSignWith(cfg, signer, nonce, agg) {
      assert SignsDepositWith(cfg, signer, nonce, agg, signer + nonce + |agg|);
    }
  }

  /** The promises about configuration, environment and operators are consistent: for every number of operators a
      configuration exists for which all hold, and in it a deposit is completed. */
  lemma PromisesAreConsistent(n: nat) returns (all: seq<Event>)
    requires n > 0
    ensures var cfg, env := SampleCfg(n), SampleEnv(n);
      && cfg.table.Size() == n && CfgOk(cfg, env) && RequestIsNoClaim(cfg) && Honest(cfg, env)
      && NaggedRun(cfg, env, {}, 1, 0, 10, all) && AdmissibleRun(cfg, env, 0, 10, all)
      && Messages(all) == AllMessages(n) && Published(Exec(cfg, 0, 10, all).duties)
  {
    hide SampleEnv, CfgOk, RequestIsNoClaim, Honest, Published, Exec, NagStep, Messages, AllMessages;
    SampleIsOk(n);
    SampleIsHonest(n);
    all := CanFinish(SampleCfg(n), SampleEnv(n), {}, 1, 0, 10, []);
    NaggedIsAdmissible(SampleCfg(n), SampleEnv(n), {}, 1, 0, 10, all);
  }

  // ---------- runs from a fresh contract ----------

  function SetupBy(op: nat): Event {
    DepositSetup(op, 0, 0, op, 0)
  }

  /** The setups of the first `k` operators. */
  function Setups(k: nat): seq<Event> {
    if k == 0 then [] else Setups(k - 1) + [SetupBy(k - 1)]
  }

  /** Nothing but the setups of the first `k` operators has arrived. */
  ghost predicate OnlySetups(r: Request, k: nat) {
    r.inputs.Keys == Below(k) && r.graphSigs == map[] && r.rootNonces == map[] && r.rootPartials == map[]
  }

  lemma SetupFrame(cfg: Cfg, r: Request, pog: map<Txid, Graph>, ev: Event)
    requires ev.DepositSetup?
    ensures var r' := Setup(cfg, r, pog, ev).0;
      && r'.inputs.Keys == r.inputs.Keys + {ev.op} && r'.graphSigs == r.graphSigs
      && r'.rootNonces == r.rootNonces && r'.rootPartials == r.rootPartials
  {
    hide Install, SetupGraphs, SetupCache, NonceDuties, Sorted, WithInput;
    var r1 := r.(inputs := WithInput(r.inputs, ev));
    WithInputKeys(r.inputs, ev);
    InstallFrame(r1, SetupGraphs(cfg, pog, r1.inputs));
  }

  lemma WithInputKeys(inputs: map<OpKey, GraphInput>, ev: Event)
    requires ev.DepositSetup?
    ensures WithInput(inputs, ev).Keys == inputs.Keys + {ev.op}
  {
  }

  lemma SetupStep(cfg: Cfg, m: Machine, ev: Event)
    requires m.state.Requested? && ev.DepositSetup?
    ensures var m' := Step(cfg, m, ev).0; var r := m.state.r;
      && m'.blockHeight == m.blockHeight && m'.state.Requested?
      && m'.state.r.inputs.Keys == r.inputs.Keys + {ev.op} && m'.state.r.graphSigs == r.graphSigs
      && m'.state.r.rootNonces == r.rootNonces && m'.state.r.rootPartials == r.rootPartials
  {
    hide Setup;
    SetupFrame(cfg, m.state.r, m.pog, ev);
  }

  lemma SetupAdmissible(cfg: Cfg, n: nat, t: Trace, op: nat)
    requires cfg.table == SampleTable(n) && op < n
    ensures Admissible(cfg, SampleEnv(n), t, SetupBy(op))
  {
    hide SampleTable, Asked, SigsComplete;
    SampleTableValid(n);
  }

  lemma Extend(cfg: Cfg, env: Env, evs: seq<Event>, ev: Event)
    requires AdmissibleRun(cfg, env, 0, 10, evs) && Admissible(cfg, env, Exec(cfg, 0, 10, evs), ev)
    ensures AdmissibleRun(cfg, env, 0, 10, evs + [ev])
    ensures Exec(cfg, 0, 10, evs + [ev]) == Next(cfg, Exec(cfg, 0, 10, evs), ev)
  {
    hide Admissible, Next;
    assert (evs + [ev])[..|evs + [ev]| - 1] == evs;
  }

  lemma NoEvents(cfg: Cfg, env: Env)
    ensures AdmissibleRun(cfg, env, 0, 10, []) && Exec(cfg, 0, 10, []) == Trace(InitialState(cfg, 0, 10), [])
  {
  }

  lemma {:induction false} AfterSetups(cfg: Cfg, n: nat, k: nat)
    requires cfg.table == SampleTable(n) && CfgOk(cfg, SampleEnv(n)) && k <= n
    ensures AdmissibleRun(cfg, SampleEnv(n), 0, 10, Setups(k))
    ensures var m := Exec(cfg, 0, 10, Setups(k)).m; m.blockHeight == 0 && m.state.Requested? && OnlySetups(m.state.r, k)
    decreases k
  {
    hide CfgOk, Step, SampleTable, SampleEnv, Admissible, AdmissibleRun, Exec;
    if k == 0 {
      NoEvents(cfg, SampleEnv(n));
    } else {
      AfterSetups(cfg, n, k - 1);
      var t := Exec(cfg, 0, 10, Setups(k - 1));
      SetupAdmissible(cfg, n, t, k - 1);
      Extend(cfg, SampleEnv(n), Setups(k - 1), SetupBy(k - 1));
      SetupStep(cfg, t.m, SetupBy(k - 1));
    }
  }

  /** All setups are in: the graphs are known, nothing is signed. */
  lemma AllSetUp(cfg: Cfg, n: nat)
    requires n > 0 && cfg.table == SampleTable(n) && CfgOk(cfg, SampleEnv(n))
    ensures AdmissibleRun(cfg, SampleEnv(n), 0, 10, Setups(n))
    ensures var t := Exec(cfg, 0, 10, Setups(n));
      && t.m.blockHeight == 0 && t.m.state.Requested? && OnlySetups(t.m.state.r, n)
      && InputsOk(cfg, SampleEnv(n), t.m.state.r.inputs) && Complete(cfg, t.m.state.r)
  {
    hide CfgOk, SampleTable, SampleEnv, AdmissibleRun, Exec, Setups, InputsOk, Complete, CacheOk, SessionsOk, RootOk;
    hide Fresh;
    AfterSetups(cfg, n, n);
    ReachableInvariant(cfg, SampleEnv(n), 0, 10, Setups(n));
    var r := Exec(cfg, 0, 10, Setups(n)).m.state.r;
    assert |r.inputs| == |r.inputs.Keys|;
    SampleTableSize(n);
  }

  lemma SampleTableSize(n: nat)
    ensures SampleTable(n).Size() == n
  {
  }

  // ---------- a deposit published with a signature that does not verify ----------

  function Zeros(k: nat): multiset<Nonce> {
    multiset{}[0 := k]
  }

  /** Two operators; a signature `p` verifies against the sum of `p` zero nonces and nothing else. */
  function TwoOperators(): Cfg {
    SampleCfg(2).(verifyRoot := (c: RootCheck) => c.aggNonce == Zeros(c.partial))
  }

  lemma {:induction false} ZeroImages(s: seq<Nonce>)
    requires forall x | x in s :: x == 0
    ensures multiset(s) == Zeros(|s|)
  {
    if s == [] {
      assert multiset(s) == Zeros(0);
    } else {
      var rest := s[1..];
      forall x | x in rest ensures x == 0 { assert x in s; }
      ZeroImages(rest);
      assert s == [s[0]] + rest && s[0] in s;
    }
  }

  lemma ZeroSum(m: map<OpKey, Nonce>)
    requires forall op | op in m :: m[op] == 0
    ensures Sum(m) == Zeros(|m|)
  {
    SumSize(m);
    ZeroImages(Images(Sorted(m.Keys), m));
  }

  lemma TwoOperatorsOk()
    ensures CfgOk(TwoOperators(), SampleEnv(2)) && BindsAggregate(TwoOperators())
  {
    hide Sum, SampleTable, GraphsWellFormed, VerifiedPartialsAggregate;
    SampleIsOk(2);
    SameGraphs();
  }

  lemma SameGraphs()
    ensures GraphsWellFormed(SampleCfg(2)) ==> GraphsWellFormed(TwoOperators())
    ensures VerifiedPartialsAggregate(SampleCfg(2)) ==> VerifiedPartialsAggregate(TwoOperators())
  {
    hide Sum, SampleTable, NoDup, SampleAggregates, SampleSignature;
    assert forall graph: Graph, nonces: map<OpKey, Nonces>, partials: map<OpKey, Partials> ::
      AllVerified(TwoOperators(), graph, nonces, partials) ==> AllVerified(SampleCfg(2), graph, nonces, partials);
  }

  /** After the setups the graph signatures arrive ready-made, so the root nonces are asked for. */
  lemma SuppliedSignatures() returns (evs: seq<Event>)
    ensures var t := Exec(TwoOperators(), 0, 10, evs);
      && AdmissibleRun(TwoOperators(), SampleEnv(2), 0, 10, evs)
      && Asked(t.duties) && t.m.state.Requested?
      && t.m.state.r.rootNonces == map[] && t.m.state.r.rootPartials == map[]
  {
    hide AdmissibleRun, Exec, Setups, SampleEnv, CfgOk, InputsOk, Complete, Asked;
    var cfg := TwoOperators();
    TwoOperatorsOk();
    AllSetUp(cfg, 2);
    var t := Exec(cfg, 0, 10, Setups(2));
    var r := t.m.state.r;
    var sigs := map c | c in r.claimTxids.Values :: Supplied(0);
    CompleteSigned(cfg, r, sigs);
    Extend(cfg, SampleEnv(2), Setups(2), AggregatedSigs(sigs));
    evs := Setups(2) + [AggregatedSigs(sigs)];
    AskedNow(t.duties, RootNonceDuty(cfg, r.rootNonces));
  }

  lemma CompleteSigned(cfg: Cfg, r: Request, sigs: map<Txid, GraphSig>)
    requires Complete(cfg, r) && sigs.Keys == r.claimTxids.Values
    ensures SigsComplete(cfg, r.claimTxids, sigs)
  {
  }

  lemma AskedNow(duties: seq<Duty>, d: Duty)
    requires d.PublishRootNonce?
    ensures Asked(duties + [d])
  {
    assert d in duties + [d];
  }

  /** An admissible run that has been asked for root nonces and holds the given root data. */
  ghost predicate RootData(evs: seq<Event>, nonces: map<OpKey, Nonce>, partials: map<OpKey, Partial>) {
    var t := Exec(TwoOperators(), 0, 10, evs);
    && AdmissibleRun(TwoOperators(), SampleEnv(2), 0, 10, evs) && Asked(t.duties)
    && t.m.state.Requested? && t.m.state.r.rootNonces == nonces && t.m.state.r.rootPartials == partials
  }

  lemma AskedStays(duties: seq<Duty>, more: seq<Duty>)
    requires Asked(duties)
    ensures Asked(duties + more)
  {
    var d :| d in duties && d.PublishRootNonce?;
    assert d in duties + more;
  }

  lemma NonceArrives(evs: seq<Event>, nonces: map<OpKey, Nonce>, partials: map<OpKey, Partial>, op: OpKey)
    requires RootData(evs, nonces, partials) && op < 2 && op !in nonces
    ensures RootData(evs + [RootNonce(op, 0)], nonces[op := 0], partials)
  {
    hide AdmissibleRun, Exec, SampleEnv, Asked, InTableOrder, SampleTable;
    var cfg, ev := TwoOperators(), RootNonce(op, 0);
    var t := Exec(cfg, 0, 10, evs);
    SampleTableValid(2);
    Extend(cfg, SampleEnv(2), evs, ev);
    AskedStays(t.duties, Step(cfg, t.m, ev).1.duties);
  }

  /** A signature made for the zero nonces held is accepted; the last one publishes the deposit. */
  lemma SignatureAccepted(m: Machine, op: OpKey)
    requires m.state.Requested? && op < 2 && op in m.state.r.rootNonces && op !in m.state.r.rootPartials
    requires forall o | o in m.state.r.rootNonces :: m.state.r.rootNonces[o] == 0
    ensures var r := m.state.r; var p := |r.rootNonces|; var partials := r.rootPartials[op := p];
      var (m', outcome) := Step(TwoOperators(), m, RootSig(op, p));
      && m' == m.(state := Requested(r.(rootPartials := partials))) && outcome.Ok?
      && (|partials| == 2 ==>
            outcome.duties == [PublishDeposit(1, InTableOrder(SampleTable(2).operators, partials), Sum(r.rootNonces))])
  {
    hide Sum, InTableOrder, SampleTable, Zeros;
    ZeroSum(m.state.r.rootNonces);
    SampleTableValid(2);
    SampleTableSize(2);
  }

  lemma SignatureArrives(evs: seq<Event>, nonces: map<OpKey, Nonce>, partials: map<OpKey, Partial>, op: OpKey)
    requires RootData(evs, nonces, partials) && op < 2 && op in nonces && op !in partials
    requires forall o | o in nonces :: nonces[o] == 0
    ensures RootData(evs + [RootSig(op, |nonces|)], nonces, partials[op := |nonces|])
  {
    hide AdmissibleRun, Exec, SampleEnv, Asked, InTableOrder, SampleTable, Step, Sum;
    var cfg, ev := TwoOperators(), RootSig(op, |nonces|);
    var t := Exec(cfg, 0, 10, evs);
    SignatureAccepted(t.m, op);
    Extend(cfg, SampleEnv(2), evs, ev);
    AskedStays(t.duties, Step(cfg, t.m, ev).1.duties);
  }

  /** A run in which operator 1 signs the deposit before operator 0 has sent its nonce: both signatures are accepted
      and the deposit is published, but the first does not verify against the published aggregate nonce. */
  lemma EarlySignaturePublished() returns (evs: seq<Event>, ev: Event, d: Duty)
    ensures var cfg, env := TwoOperators(), SampleEnv(2);
      var t := Exec(cfg, 0, 10, evs);
      var (m', outcome) := Step(cfg, t.m, ev);
      && CfgOk(cfg, env) && BindsAggregate(cfg)
      && AdmissibleRun(cfg, env, 0, 10, evs) && Admissible(cfg, env, t, ev)
      && outcome.Ok? && d in outcome.duties && d.PublishDeposit? && |d.partials| == cfg.table.Size()
      && m'.state.Requested? && !PublicationVerifies(cfg, m'.state.r.rootNonces, d)
  {
    hide AdmissibleRun, Exec, SampleEnv, CfgOk, BindsAggregate, Asked, Sum, Step, SampleTable, InTableOrder;
    TwoOperatorsOk();
    SampleTableSize(2);
    evs := SuppliedSignatures();
    NonceArrives(evs, map[], map[], 1);
    evs := evs + [RootNonce(1, 0)];
    SignatureArrives(evs, map[1 := 0], map[], 1);
    evs := evs + [RootSig(1, 1)];
    NonceArrives(evs, map[1 := 0], map[1 := 1], 0);
    evs := evs + [RootNonce(0, 0)];
    var m := Exec(TwoOperators(), 0, 10, evs).m;
    SignatureAccepted(m, 0);
    ev := RootSig(0, 2);
    d := Step(TwoOperators(), m, ev).1.duties[0];
    OutdatedPublication(d, m.state.r.rootNonces);
  }

  lemma OutdatedPublication(d: Duty, nonces: map<OpKey, Nonce>)
    requires nonces == map[1 := 0, 0 := 0]
    requires d == PublishDeposit(1, InTableOrder(SampleTable(2).operators, map[1 := 1, 0 := 2]), Sum(nonces))
    ensures |d.partials| == TwoOperators().table.Size() && !PublicationVerifies(TwoOperators(), nonces, d)
  {
    hide Sum;
    ZeroSum(nonces);
    assert SampleTable(2).operators == [Operator(0, 0, 0), Operator(1, 1, 1)];
    assert d.partials == [2, 1];
    assert Zeros(2)[0] == 2 && Zeros(1)[0] == 1;
  }

  // ---------- a rejection that is not clean ----------

  const ASSIGNMENT := Assignment(DepositEntry(0, Some(Dispatch(0, Some(0), 0)), Some(0)), 0, 0)

  /** The deposit confirms although no graph is signed. */
  lemma DepositsUnsigned(n: nat, m: Machine) returns (m': Machine)
    requires n > 0 && m.state.Requested? && m.state.r.graphSigs == map[] && CfgOk(SampleCfg(n), SampleEnv(n))
    requires InputsOk(SampleCfg(n), SampleEnv(n), m.state.r.inputs) && Complete(SampleCfg(n), m.state.r)
    ensures m' == Step(SampleCfg(n), m, DepositConfirmation(Tx(1, [], [], 0))).0
    ensures m'.blockHeight == m.blockHeight && m'.state.Deposited? && m'.state.g.graphSigs == map[]
    ensures 0 in m'.state.g.claimTxids && m'.state.g.claimTxids[0] in m'.state.g.pegOutGraphs
  {
    hide CfgOk, SampleEnv, InputsOk, SampleTable, CanConfirm, PairGraphs, ClaimOpen, HasOwner;
    var cfg, r := SampleCfg(n), m.state.r;
    SampleTableValid(n);
    ConfirmableWhenComplete(cfg, SampleEnv(n), r);
    FirstPaired(r);
    m' := Step(cfg, m, DepositConfirmation(Tx(1, [], [], 0))).0;
  }

  lemma FirstPaired(r: Request)
    requires CanConfirm(r) && 0 in r.claimTxids
    ensures r.claimTxids[0] in PairGraphs(r)
  {
  }

  /** Assigned to this node, fulfilled and claimed. */
  lemma ClaimsUnsigned(n: nat, m: Machine) returns (claim: Tx, m': Machine)
    requires n > 0 && m.state.Deposited? && m.state.g.graphSigs == map[]
    requires 0 in m.state.g.claimTxids && m.state.g.claimTxids[0] in m.state.g.pegOutGraphs
    ensures var cfg := SampleCfg(n); var m1 := Step(cfg, m, ASSIGNMENT).0;
      var m2 := Step(cfg, m1, PegOutGraphConfirmation(Tx(0, [], [], 0), 0)).0;
      m' == Step(cfg, m2, PegOutGraphConfirmation(claim, 0)).0
    ensures m'.blockHeight == m.blockHeight && m'.state.Claimed? && m'.state.g.graphSigs == map[]
    ensures m'.state.fulfiller == 0 && m'.state.claimHeight == 0
  {
    hide SampleTable, SampleAggregates, SampleSignature, SampleGraph, FindIdx;
    var cfg := SampleCfg(n);
    PovIsFirst(n);
    var m1 := Step(cfg, m, ASSIGNMENT).0;
    claim := Tx(m1.state.active.1.claimTxid, [], [], 0);
    var m2 := Step(cfg, m1, PegOutGraphConfirmation(Tx(0, [], [], 0), 0)).0;
    m' := Step(cfg, m2, PegOutGraphConfirmation(claim, 0)).0;
  }

  lemma PovIsFirst(n: nat)
    requires n > 0
    ensures SampleTable(n).KeyOfIdx(0) == Some(0) && SampleTable(n).pov == 0
  {
    assert SampleTable(n).operators[0] == Operator(0, 0, 0);
  }

  /** A run whose deposit confirms unsigned: the block at the claim's timelock is rejected and has still advanced the
      height.  Admissible runs have no such confirmation. */
  lemma UnsignedClaimAtTimelock(n: nat) returns (evs: seq<Event>)
    requires n > 0
    ensures var cfg := SampleCfg(n); var m := Run(cfg, InitialState(cfg, 0, 10), evs);
      var (m', outcome) := Step(cfg, m, Block(1)); outcome.Rejected? && Changed(m, m')
  {
    hide SampleEnv, SampleTable, CfgOk, InputsOk, Complete, Run, Exec, Step, AdmissibleRun;
    var cfg := SampleCfg(n);
    var m0 := InitialState(cfg, 0, 10);
    SampleIsOk(n);
    AllSetUp(cfg, n);
    ExecIsRun(cfg, 0, 10, Setups(n));
    evs := Setups(n);
    var deposited := DepositsUnsigned(n, Run(cfg, m0, evs));
    RunOneMore(cfg, m0, evs, DepositConfirmation(Tx(1, [], [], 0)));
    evs := evs + [DepositConfirmation(Tx(1, [], [], 0))];
    var claim, m := ClaimsUnsigned(n, deposited);
    RunOneMore(cfg, m0, evs, ASSIGNMENT);
    evs := evs + [ASSIGNMENT];
    RunOneMore(cfg, m0, evs, PegOutGraphConfirmation(Tx(0, [], [], 0), 0));
    evs := evs + [PegOutGraphConfirmation(Tx(0, [], [], 0), 0)];
    RunOneMore(cfg, m0, evs, PegOutGraphConfirmation(claim, 0));
    evs := evs + [PegOutGraphConfirmation(claim, 0)];
    PovIsFirst(n);
    assert BlockFindsNoSignature(cfg, m, 1);
    RejectionChangesStateIff(cfg, m, Block(1));
  }
}
