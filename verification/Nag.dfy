/** Asking peers for missing messages: for every contract, exactly the missing messages of its earliest
    incomplete stage. */
module Nag {
  import opened Collections
  import opened ContractTypes

  datatype NagRequest =
    | StakeChainExchange(operator: OpKey)
    | SetupFor(depositTxid: Txid, operator: OpKey)
    | NoncesFor(session: Txid, operator: OpKey)
    | SignaturesFor(session: Txid, operator: OpKey)

  /** What nagging looks at: the operators, whose stake chain is known, and per contract its txid-keyed
      state together with the operators whose stake txid at its index is known. */
  datatype Tracked = Tracked(staked: set<OpKey>, state: ContractState)

  const NUM_STAGES: nat := 6

  function Contributors<V>(sessions: map<Txid, map<OpKey, V>>, claim: Txid): set<OpKey> {
    if claim in sessions then sessions[claim].Keys else {}
  }

  // ---------- the reference: which messages are missing ----------

  predicate ClaimMissing<V>(want: set<OpKey>, claimTxids: map<OpKey, Txid>, sessions: map<Txid, map<OpKey, V>>,
                            claim: Txid, op: OpKey) {
    claim in claimTxids.Values && op in want && op !in Contributors(sessions, claim)
  }

  /** Whether a request is for a message of the given stage that has not arrived. */
  predicate Missing(stage: nat, req: NagRequest, want: set<OpKey>, txid: Txid, c: Tracked) {
    match stage
    case 0 => req.SetupFor? && req.depositTxid == txid && req.operator in want - c.staked
    case 1 =>
      c.state.Requested? && req.SetupFor? && req.depositTxid == txid && req.operator in want - c.state.r.inputs.Keys
    case 2 => c.state.Requested? && req.NoncesFor?
              && ClaimMissing(want, c.state.r.claimTxids, c.state.r.graphNonces, req.session, req.operator)
    case 3 => c.state.Requested? && req.SignaturesFor?
              && ClaimMissing(want, c.state.r.claimTxids, c.state.r.graphPartials, req.session, req.operator)
    case 4 => c.state.Requested? && req.NoncesFor? && req.session == c.state.r.depositRequestTxid
              && req.operator in want - c.state.r.rootNonces.Keys
    case 5 => c.state.Requested? && req.SignaturesFor? && req.session == c.state.r.depositRequestTxid
              && req.operator in want - c.state.r.rootPartials.Keys
    case _ => false
  }

  ghost predicate StageDone(stage: nat, want: set<OpKey>, txid: Txid, c: Tracked) {
    forall req: NagRequest :: !Missing(stage, req, want, txid, c)
  }

  ghost predicate EarlierDone(stage: nat, want: set<OpKey>, txid: Txid, c: Tracked) {
    forall k: nat | k < stage :: StageDone(k, want, txid, c)
  }

  /** The requests owed to a contract: the missing messages of its earliest incomplete stage. */
  ghost predicate Nagged(req: NagRequest, want: set<OpKey>, txid: Txid, c: Tracked) {
    exists stage: nat :: Missing(stage, req, want, txid, c) && EarlierDone(stage, want, txid, c)
  }

  /** No claim is shared, so no session is asked about twice. */
  ghost predicate ClaimsInjective(c: Tracked) {
    c.state.Requested? ==>
      forall a, b | a in c.state.r.claimTxids && b in c.state.r.claimTxids && a != b ::
        c.state.r.claimTxids[a] != c.state.r.claimTxids[b]
  }

  /** A list is the nag list of a contract: the owed requests and nothing else, each once. */
  ghost predicate IsNagOf(q: seq<NagRequest>, want: set<OpKey>, txid: Txid, c: Tracked) {
    && (forall req :: req in q <==> Nagged(req, want, txid, c))
    && (ClaimsInjective(c) ==> NoDup(q))
  }

  ghost predicate IsStage(q: seq<NagRequest>, stage: nat, want: set<OpKey>, txid: Txid, c: Tracked) {
    && (forall req :: req in q <==> Missing(stage, req, want, txid, c))
    && (ClaimsInjective(c) ==> NoDup(q))
  }

  lemma StageIsNag(q: seq<NagRequest>, stage: nat, want: set<OpKey>, txid: Txid, c: Tracked)
    requires IsStage(q, stage, want, txid, c) && EarlierDone(stage, want, txid, c)
    ensures q != [] ==> IsNagOf(q, want, txid, c)
    ensures q == [] ==> EarlierDone(stage + 1, want, txid, c)
  {
    hide Missing;
    if q != [] {
      assert q[0] in q;
      assert !StageDone(stage, want, txid, c);
      forall req ensures req in q <==> Nagged(req, want, txid, c) {
        if Nagged(req, want, txid, c) {
          var k: nat :| Missing(k, req, want, txid, c) && EarlierDone(k, want, txid, c);
          assert !StageDone(k, want, txid, c);
          assert k == stage;
        }
      }
    } else {
      assert StageDone(stage, want, txid, c);
    }
  }

  lemma NothingNagged(want: set<OpKey>, txid: Txid, c: Tracked)
    requires EarlierDone(NUM_STAGES, want, txid, c)
    ensures IsNagOf([], want, txid, c)
  {
    forall req, k: nat ensures !Missing(k, req, want, txid, c) {
      if k < NUM_STAGES { assert StageDone(k, want, txid, c); }
    }
  }

  lemma OnlyRequestedHasStages(want: set<OpKey>, txid: Txid, c: Tracked)
    requires !c.state.Requested? && EarlierDone(1, want, txid, c)
    ensures IsNagOf([], want, txid, c)
  {
    assert forall k: nat | k < NUM_STAGES :: StageDone(k, want, txid, c);
    NothingNagged(want, txid, c);
  }

  // ---------- collecting the requests ----------

  /** What is asked for; together with an operator it makes a request. */
  datatype Item = SetupOf(depositTxid: Txid) | NoncesOf(session: Txid) | SignaturesOf(session: Txid)

  function RequestFor(item: Item, op: OpKey): NagRequest {
    match item
    case SetupOf(txid) => SetupFor(txid, op)
    case NoncesOf(session) => NoncesFor(session, op)
    case SignaturesOf(session) => SignaturesFor(session, op)
  }

  method AskMissing(item: Item, want: set<OpKey>, have: set<OpKey>) returns (q: seq<NagRequest>)
    ensures forall req :: req in q <==> exists op :: op in want - have && req == RequestFor(item, op)
    ensures NoDup(q)
  {
    q := [];
    var ops := Sorted(want - have);
    for i := 0 to |ops|
      invariant |q| == i && forall j | 0 <= j < i :: q[j] == RequestFor(item, ops[j])
    {
      q := q + [RequestFor(item, ops[i])];
    }
    forall i: nat, j: nat | i < |q| && j < |q| && Before(i, j) ensures q[i] != q[j] {
      assert ops[i] < ops[j];
    }
    forall req ensures req in q <==> exists op :: op in want - have && req == RequestFor(item, op) {
      if req in q {
        var i :| 0 <= i < |q| && q[i] == req;
        assert ops[i] in ops;
      }
      if op :| op in want - have && req == RequestFor(item, op) {
        assert op in ops;
        var i :| 0 <= i < |ops| && ops[i] == op;
        assert q[i] == req;
      }
    }
  }

  /** The requests for one kind of contribution, over all claims in operator order. */
  method AskClaims<V>(nonces: bool, want: set<OpKey>, claimTxids: map<OpKey, Txid>, sessions: map<Txid, map<OpKey, V>>)
    returns (q: seq<NagRequest>)
    ensures forall req :: req in q <==>
      (if nonces then req.NoncesFor? else req.SignaturesFor?)
        && ClaimMissing(want, claimTxids, sessions, req.session, req.operator)
    ensures (forall a, b | a in claimTxids && b in claimTxids && a != b :: claimTxids[a] != claimTxids[b]) ==> NoDup(q)
  {
    q := [];
    var ops := Sorted(claimTxids.Keys);
    for i := 0 to |ops|
      invariant forall req :: req in q <==>
        && (if nonces then req.NoncesFor? else req.SignaturesFor?)
        && ClaimMissing(want, claimTxids, sessions, req.session, req.operator)
        && ClaimOfSome(ops[..i], claimTxids, req.session)
      invariant (forall a, b | a in claimTxids && b in claimTxids && a != b :: claimTxids[a] != claimTxids[b]) ==>
        NoDup(q)
    {
      assert ops[i] in ops;
      var claim := claimTxids[ops[i]];
      assert claim in claimTxids.Values;
      var kind := if nonces then NoncesOf(claim) else SignaturesOf(claim);
      var more := AskMissing(kind, want, Contributors(sessions, claim));
      forall req ensures req in more <==>
        && (if nonces then req.NoncesFor? else req.SignaturesFor?) && req.session == claim
        && ClaimMissing(want, claimTxids, sessions, req.session, req.operator)
      {
        var item := if nonces then NoncesOf(claim) else SignaturesOf(claim);
        if && (if nonces then req.NoncesFor? else req.SignaturesFor?) && req.session == claim
           && req.operator in want - Contributors(sessions, claim) {
          assert req == RequestFor(item, req.operator);
        }
      }
      ClaimsSoFar(ops, claimTxids, i);
      if forall a, b | a in claimTxids && b in claimTxids && a != b :: claimTxids[a] != claimTxids[b] {
        forall x | x in q ensures x !in more { }
        NoDupAppend(q, more);
      }
      q := q + more;
    }
    assert ops[..|ops|] == ops;
    forall c | c in claimTxids.Values ensures ClaimOfSome(ops, claimTxids, c) {
      var op :| op in claimTxids && claimTxids[op] == c;
      assert op in ops;
    }
  }

  ghost predicate ClaimOfSome(ops: seq<OpKey>, claimTxids: map<OpKey, Txid>, claim: Txid) {
    exists op :: op in ops && op in claimTxids && claimTxids[op] == claim
  }

  lemma ClaimsSoFar(ops: seq<OpKey>, claimTxids: map<OpKey, Txid>, i: nat)
    requires Lists(ops, claimTxids.Keys) && i < |ops| && ops[i] in claimTxids
    ensures forall c :: ClaimOfSome(ops[..i + 1], claimTxids, c) <==>
      ClaimOfSome(ops[..i], claimTxids, c) || c == claimTxids[ops[i]]
    ensures (forall a, b | a in claimTxids && b in claimTxids && a != b :: claimTxids[a] != claimTxids[b])
            ==> !ClaimOfSome(ops[..i], claimTxids, claimTxids[ops[i]])
  {
    var now, before := ops[..i + 1], ops[..i];
    assert now == before + [ops[i]];
    assert forall op :: op in now <==> op in before || op == ops[i];
    forall j: nat | j < i ensures before[j] != ops[i] { assert Before(j, i); }
    forall c
      ensures ClaimOfSome(now, claimTxids, c) <==> ClaimOfSome(before, claimTxids, c) || c == claimTxids[ops[i]]
    {
      if ClaimOfSome(now, claimTxids, c) {
        var op :| op in now && op in claimTxids && claimTxids[op] == c;
        assert op == ops[i] || op in before;
      }
      if ClaimOfSome(before, claimTxids, c) {
        var op :| op in before && op in claimTxids && claimTxids[op] == c;
        assert op in now;
      }
      assert ops[i] in now;
    }
  }

  lemma NoDupAppend<T>(p: seq<T>, q: seq<T>)
    requires NoDup(p) && NoDup(q) && forall x | x in p :: x !in q
    ensures NoDup(p + q)
  {
    forall i: nat, j: nat | i < |p + q| && j < |p + q| && Before(i, j) ensures (p + q)[i] != (p + q)[j] {
      if i >= |p| {
        assert Before(i - |p|, j - |p|);
      } else if j >= |p| {
        assert p[i] in p && q[j - |p|] in q;
      }
    }
  }

  method NagContract(want: set<OpKey>, txid: Txid, c: Tracked) returns (q: seq<NagRequest>)
    ensures IsNagOf(q, want, txid, c)
  {
    hide NoDup, EarlierDone, StageDone, IsNagOf;
    NothingBefore(want, txid, c);
    q := AskMissing(SetupOf(txid), want, c.staked);
    StageIsNag(q, 0, want, txid, c);
    if q != [] { return; }
    if !c.state.Requested? {
      OnlyRequestedHasStages(want, txid, c);
      return;
    }
    var r := c.state.r;
    q := AskMissing(SetupOf(txid), want, r.inputs.Keys);
    StageIsNag(q, 1, want, txid, c);
    if q != [] { return; }
    q := AskClaims(true, want, r.claimTxids, r.graphNonces);
    StageIsNag(q, 2, want, txid, c);
    if q != [] { return; }
    q := AskClaims(false, want, r.claimTxids, r.graphPartials);
    StageIsNag(q, 3, want, txid, c);
    if q != [] { return; }
    q := AskMissing(NoncesOf(r.depositRequestTxid), want, r.rootNonces.Keys);
    StageIsNag(q, 4, want, txid, c);
    if q != [] { return; }
    q := AskMissing(SignaturesOf(r.depositRequestTxid), want, r.rootPartials.Keys);
    StageIsNag(q, 5, want, txid, c);
    if q == [] { NothingNagged(want, txid, c); }
  }

  lemma NothingBefore(want: set<OpKey>, txid: Txid, c: Tracked)
    ensures EarlierDone(0, want, txid, c)
  {
  }

  /** All requests: unknown stake chains first, then contract by contract. */
  method NagAll(want: set<OpKey>, chains: set<OpKey>, contracts: map<Txid, Tracked>) returns (all: seq<NagRequest>)
    ensures forall req :: req in all <==>
      || (req.StakeChainExchange? && req.operator in want - chains)
      || exists txid :: txid in contracts && Nagged(req, want, txid, contracts[txid])
  {
    hide Nagged, NoDup;
    all := AskExchanges(want - chains);
    var txids := Sorted(contracts.Keys);
    for i := 0 to |txids|
      invariant forall req :: req in all <==>
        || (req.StakeChainExchange? && req.operator in want - chains)
        || exists txid :: txid in txids[..i] && txid in contracts && Nagged(req, want, txid, contracts[txid])
    {
      assert txids[i] in txids;
      var q := NagContract(want, txids[i], contracts[txids[i]]);
      all := all + q;
      assert txids[..i + 1] == txids[..i] + [txids[i]];
    }
    assert txids[..|txids|] == txids;
  }

  method AskExchanges(missing: set<OpKey>) returns (q: seq<NagRequest>)
    ensures forall req :: req in q <==> req.StakeChainExchange? && req.operator in missing
  {
    q := [];
    var ops := Sorted(missing);
    for i := 0 to |ops|
      invariant forall req :: req in q <==> req.StakeChainExchange? && req.operator in ops[..i]
    {
      q := q + [StakeChainExchange(ops[i])];
      assert ops[..i + 1] == ops[..i] + [ops[i]];
    }
    assert ops[..|ops|] == ops;
  }
}
