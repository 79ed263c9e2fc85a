/** When the deposit signatures held verify against the nonces of all operators. */
module ContractRoot {
  import opened Collections
  import opened ContractTypes
  import opened ContractSpec

  ghost predicate RootPartialOk(cfg: Cfg, r: Request, op: OpKey)
    requires op in r.rootPartials
  {
    op in r.rootNonces && cfg.verifyRoot(RootCheck(op, r.rootNonces[op], Sum(r.rootNonces), r.rootPartials[op]))
  }

  /** Every deposit signature held verifies against the aggregate of the nonces held. */
  ghost predicate RootVerified(cfg: Cfg, r: Request) {
    forall op | op in r.rootPartials :: RootPartialOk(cfg, r, op)
  }

  /** A partial signature verifies against one aggregate nonce only (the nonce enters the challenge). */
  ghost predicate BindsAggregate(cfg: Cfg) {
    forall signer: OpKey, nonce: Nonce, a: multiset<Nonce>, b: multiset<Nonce>, p: Partial ::
      cfg.verifyRoot(RootCheck(signer, nonce, a, p)) && cfg.verifyRoot(RootCheck(signer, nonce, b, p)) ==> a == b
  }

  lemma SumSize<V>(m: map<nat, V>)
    ensures |Sum(m)| == |m|
  {
    assert |m| == |m.Keys|;
  }

  /** An accepted deposit signature was checked against the nonces held, which it does not change. */
  lemma RootSigKeepsVerified(cfg: Cfg, r: Request, ev: Event)
    requires ev.RootSig? && RootVerified(cfg, r)
    ensures RootVerified(cfg, AddRootPartial(cfg, r, ev).0)
  {
    hide Sum, InTableOrder;
    var r' := AddRootPartial(cfg, r, ev).0;
    forall op | op in r'.rootPartials ensures RootPartialOk(cfg, r', op) {
      if op in r.rootPartials { assert RootPartialOk(cfg, r, op); }
    }
  }
}
