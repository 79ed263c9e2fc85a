/** What blocks do over whole runs: heights without gaps, one abort at the deadline, releases from the timelock on. */
module ContractBlocks {
  import opened Collections
  import opened ContractTypes
  import opened ContractSpec
  import opened ContractCache
  import opened ContractInvariant
  import opened ContractSigning
  import opened ContractLifecycle
  import opened ContractRuns

  // ---------- heights ----------

  lemma HeightStep(cfg: Cfg, m: Machine, ev: Event)
    ensures Step(cfg, m, ev).0.blockHeight
         == if ev == Block(m.blockHeight + 1) then m.blockHeight + 1 else m.blockHeight
  {
    hide Setup, AddNonces, AddPartials, AddRootNonce, AddRootPartial, Confirm, CanConfirm, PairGraphs, BlockDuty;
  }

  /** The heights of the block events that advanced the machine. */
  function BlocksTaken(cfg: Cfg, m: Machine, evs: seq<Event>): seq<Height> {
    if evs == [] then []
    else
      var front, ev := evs[..|evs| - 1], evs[|evs| - 1];
      BlocksTaken(cfg, m, front) + if Step(cfg, Run(cfg, m, front), ev).0.blockHeight != Run(cfg, m, front).blockHeight
                                   then [Step(cfg, Run(cfg, m, front), ev).0.blockHeight] else []
  }

  /** Whatever arrives, the blocks taken follow one another without gap or repeat up to the machine's height. */
  lemma {:induction false} HeightsHaveNoGap(cfg: Cfg, m: Machine, evs: seq<Event>)
    ensures var taken := BlocksTaken(cfg, m, evs);
      && Run(cfg, m, evs).blockHeight == m.blockHeight + |taken|
      && forall i | 0 <= i < |taken| :: taken[i] == m.blockHeight + 1 + i && Block(taken[i]) in evs
    decreases |evs|
  {
    hide Step;
    if evs != [] {
      var front, ev := evs[..|evs| - 1], evs[|evs| - 1];
      HeightsHaveNoGap(cfg, m, front);
      HeightStep(cfg, Run(cfg, m, front), ev);
      assert evs == front + [ev];
    }
  }

  // ---------- aborting ----------

  function DutiesOf(outcome: Outcome): seq<Duty> {
    if outcome.Ok? then outcome.duties else []
  }

  /** The duties of a run, in order. */
  function Emitted(cfg: Cfg, m: Machine, evs: seq<Event>): seq<Duty> {
    if evs == [] then []
    else
      var front, ev := evs[..|evs| - 1], evs[|evs| - 1];
      Emitted(cfg, m, front) + DutiesOf(Step(cfg, Run(cfg, m, front), ev).1)
  }

  lemma EmittedOneMore(cfg: Cfg, m: Machine, evs: seq<Event>, ev: Event)
    ensures Emitted(cfg, m, evs + [ev]) == Emitted(cfg, m, evs) + DutiesOf(Step(cfg, Run(cfg, m, evs), ev).1)
  {
    hide Step, Run, DutiesOf;
    var all := evs + [ev];
    assert all[..|all| - 1] == evs;
  }

  lemma MessagesDoNotAbort(cfg: Cfg, m: Machine, ev: Event)
    requires IsMessage(ev)
    ensures Abort !in DutiesOf(Step(cfg, m, ev).1) && (Step(cfg, m, ev).0.state.Aborted? ==> m.state.Aborted?)
  {
    hide Setup, AddNonces, AddPartials, InTableOrder;
    if m.state.Requested? {
      var r := m.state.r;
      match ev
      case DepositSetup(_, _, _, _, _) => SetupAsksNonces(cfg, r, m.pog, ev);
      case GraphNonces(_, _, _) => if AddNonces(cfg, r, m.pog, ev).2.Ok? { NoncesAskSignatures(cfg, r, m.pog, ev); }
      case GraphSigs(_, _, _) => if AddPartials(cfg, r, m.pog, ev).1.Ok? { PartialsAskRootNonce(cfg, r, m.pog, ev); }
      case _ =>
    }
  }

  lemma ConfirmDoesNotAbort(cfg: Cfg, s: ContractState, tx: Tx, height: Height)
    ensures Abort !in DutiesOf(Confirm(cfg, s, tx, height).1)
    ensures Confirm(cfg, s, tx, height).0.Aborted? ==> s.Aborted?
  {
    hide IsChallenge, IsDisprove, AllSigned;
  }

  /** Only the block that reaches the deadline of a waiting contract aborts it, with one duty. */
  lemma AbortStep(cfg: Cfg, m: Machine, ev: Event)
    ensures var (m', outcome) := Step(cfg, m, ev);
      var aborts := m.state.Requested? && ev == Block(m.blockHeight + 1) && ev.height >= m.state.r.abortDeadline;
      && multiset(DutiesOf(outcome))[Abort] == (if aborts then 1 else 0)
      && (m'.state.Aborted? <==> m.state.Aborted? || aborts)
  {
    hide Confirm, ProcessMessage, CanConfirm, PairGraphs;
    if IsMessage(ev) {
      MessagesDoNotAbort(cfg, m, ev);
      AbortedIsFinal(cfg, m, ev);
    } else if ev.PegOutGraphConfirmation? {
      ConfirmDoesNotAbort(cfg, m.state, ev.tx, ev.height);
      AbortedIsFinal(cfg, m, ev);
    }
  }

  lemma AbortedIsFinal(cfg: Cfg, m: Machine, ev: Event)
    ensures m.state.Aborted? ==> Step(cfg, m, ev).0.state.Aborted?
  {
    hide Step, Edge;
    StepMovesForward(cfg, m, ev);
  }

  lemma DeadlineStays(cfg: Cfg, m: Machine, ev: Event)
    requires m.state.Requested? && Step(cfg, m, ev).0.state.Requested?
    ensures Step(cfg, m, ev).0.state.r.abortDeadline == m.state.r.abortDeadline
  {
    hide SetupGraphs, SetupCache, SigningDuties, SessionsFull, Sorted, CanAggregate, ByClaim, AggregateSigs;
    hide VerifyPartials, Sum, InTableOrder, Confirm, BlockDuty;
    hide AggregateNonces, Contribute, Unpacks, Owners, NoContributions, Summaries, ClaimsOf;
    if !IsMessage(ev) { OnlyMessagesKeepRequested(cfg, m, ev); }
  }

  lemma AppendCounts(a: seq<Duty>, b: seq<Duty>)
    ensures multiset(a + b)[Abort] == multiset(a)[Abort] + multiset(b)[Abort]
  {
  }

  /** Over every run: a contract still waiting after a block is below its deadline, an aborted one has reached it, and
      the abort duty was emitted exactly once if it is aborted and never otherwise. */
  lemma {:induction false} AbortsOnceAtDeadline(cfg: Cfg, height: Height, deadline: Height, evs: seq<Event>)
    ensures var m0 := InitialState(cfg, height, deadline); var m := Run(cfg, m0, evs);
      && (m.state.Requested? ==>
        m.state.r.abortDeadline == deadline && (m.blockHeight == height || m.blockHeight < deadline))
      && (m.state.Aborted? ==> m.blockHeight >= deadline)
      && multiset(Emitted(cfg, m0, evs))[Abort] == (if m.state.Aborted? then 1 else 0)
    decreases |evs|
  {
    hide Step, DutiesOf, Edge, Keeps;
    var m0 := InitialState(cfg, height, deadline);
    if evs == [] {
      assert Emitted(cfg, m0, []) == [];
    } else {
      var front, ev := evs[..|evs| - 1], evs[|evs| - 1];
      var m := Run(cfg, m0, front);
      AbortsOnceAtDeadline(cfg, height, deadline, front);
      StepMovesForward(cfg, m, ev);
      HeightStep(cfg, m, ev);
      AbortStep(cfg, m, ev);
      if Step(cfg, m, ev).0.state.Requested? { DeadlineStays(cfg, m, ev); }
      AppendCounts(Emitted(cfg, m0, front), DutiesOf(Step(cfg, m, ev).1));
    }
  }

  // ---------- timelocks ----------

  predicate Timelocked(s: ContractState) {
    s.Claimed? || s.Challenged? || s.Asserted?
  }

  /** The first height at which the next transaction of the graph may be published. */
  function ReleaseHeight(cfg: Cfg, s: ContractState): Height
    requires Timelocked(s)
  {
    if s.Claimed? then s.claimHeight + cfg.payoutOptimisticTimelock
    else if s.Challenged? then s.claimHeight + cfg.preAssertTimelock
    else s.postAssertHeight + cfg.payoutTimelock
  }

  function ReleaseDuty(s: ContractState): Duty
    requires Timelocked(s) && s.active.1.claimTxid in s.g.graphSigs
  {
    var claim := s.active.1.claimTxid;
    var sig := s.g.graphSigs[claim];
    if s.Claimed? then PublishPayoutOptimistic(claim, s.active.1.stakeTxid, sig)
    else if s.Challenged? then PublishPreAssert(claim, sig)
    else PublishPayout(s.active.1.postAssertTxid, claim, s.active.0.stakeTxid, sig)
  }

  function NextBlocks(height: Height, k: nat): seq<Event> {
    if k == 0 then [] else NextBlocks(height, k - 1) + [Block(height + k)]
  }

  /** How many of the heights `height + 1 .. height + k` are at least `due`. */
  function CountDue(height: Height, k: nat, due: Height): nat {
    if height + k < due then 0 else if due <= height then k else height + k + 1 - due
  }

  function Repeated(d: Duty, k: nat): seq<Duty> {
    if k == 0 then [] else Repeated(d, k - 1) + [d]
  }

  /** What the next `k` blocks tell this node: one release for each of them from the release height on. */
  function Releases(cfg: Cfg, m: Machine, k: nat): seq<Duty>
    requires Timelocked(m.state) && m.state.active.1.claimTxid in m.state.g.graphSigs
  {
    if m.state.fulfiller != cfg.table.pov then []
    else Repeated(ReleaseDuty(m.state), CountDue(m.blockHeight, k, ReleaseHeight(cfg, m.state)))
  }

  lemma ReleaseStep(cfg: Cfg, m: Machine)
    requires Timelocked(m.state) && LifeOk(cfg, m.state)
    ensures m.state.active.1.claimTxid in m.state.g.graphSigs
    ensures var (m', outcome) := Step(cfg, m, Block(m.blockHeight + 1));
      && m' == m.(blockHeight := m.blockHeight + 1)
      && outcome == Ok(if m.state.fulfiller == cfg.table.pov && m.blockHeight + 1 >= ReleaseHeight(cfg, m.state)
                       then [ReleaseDuty(m.state)] else [])
  {
    hide LifeOk;
    ActiveSigned(cfg, m.state);
  }

  lemma OneMoreRelease(cfg: Cfg, m: Machine, k: nat)
    requires k > 0 && Timelocked(m.state) && m.state.active.1.claimTxid in m.state.g.graphSigs
    ensures Releases(cfg, m, k) == Releases(cfg, m, k - 1) +
      if m.state.fulfiller == cfg.table.pov && m.blockHeight + k >= ReleaseHeight(cfg, m.state)
      then [ReleaseDuty(m.state)] else []
  {
    hide ReleaseDuty, ReleaseHeight;
  }

  lemma {:induction false} BlocksRelease(cfg: Cfg, m: Machine, k: nat)
    requires Timelocked(m.state) && LifeOk(cfg, m.state)
    ensures m.state.active.1.claimTxid in m.state.g.graphSigs
    ensures Run(cfg, m, NextBlocks(m.blockHeight, k)) == m.(blockHeight := m.blockHeight + k)
    ensures Emitted(cfg, m, NextBlocks(m.blockHeight, k)) == Releases(cfg, m, k)
    decreases k
  {
    hide Step, LifeOk, ReleaseDuty, ReleaseHeight, Releases, Run, Emitted;
    ActiveSigned(cfg, m.state);
    if k == 0 {
      NoReleases(cfg, m);
    } else {
      BlocksRelease(cfg, m, k - 1);
      RunOneMore(cfg, m, NextBlocks(m.blockHeight, k - 1), Block(m.blockHeight + k));
      EmittedOneMore(cfg, m, NextBlocks(m.blockHeight, k - 1), Block(m.blockHeight + k));
      var before := m.(blockHeight := m.blockHeight + k - 1);
      ReleaseStep(cfg, before);
      SameRelease(cfg, m, before);
      OneMoreRelease(cfg, m, k);
    }
  }

  lemma NoReleases(cfg: Cfg, m: Machine)
    requires Timelocked(m.state) && m.state.active.1.claimTxid in m.state.g.graphSigs
    ensures Releases(cfg, m, 0) == [] == Emitted(cfg, m, []) && Run(cfg, m, []) == m
  {
  }

  lemma SameRelease(cfg: Cfg, m: Machine, m': Machine)
    requires m'.state == m.state && Timelocked(m.state) && m.state.active.1.claimTxid in m.state.g.graphSigs
    ensures ReleaseDuty(m'.state) == ReleaseDuty(m.state) && ReleaseHeight(cfg, m'.state) == ReleaseHeight(cfg, m.state)
  {
  }

  /** In every reachable claimed, challenged or asserted state: the next `k` blocks change nothing but the height, and
      each of them from the timelock on, no earlier one, tells the fulfiller to publish the next transaction of its
      graph.  Everyone else is told nothing. */
  lemma BlocksReleaseWhenDue(cfg: Cfg, env: Env, height: Height, deadline: Height, evs: seq<Event>, k: nat)
    requires CfgOk(cfg, env) && AdmissibleRun(cfg, env, height, deadline, evs)
    requires Timelocked(Exec(cfg, height, deadline, evs).m.state)
    ensures var m := Exec(cfg, height, deadline, evs).m; var blocks := NextBlocks(m.blockHeight, k);
      && m.state.active.1.claimTxid in m.state.g.graphSigs
      && Run(cfg, m, blocks) == m.(blockHeight := m.blockHeight + k)
      && Emitted(cfg, m, blocks) == Releases(cfg, m, k)
  {
    hide CfgOk, AdmissibleRun, Exec, LifeOk, Run, Emitted, Releases, RequestOk;
    ReachableInvariant(cfg, env, height, deadline, evs);
    BlocksRelease(cfg, Exec(cfg, height, deadline, evs).m, k);
  }
}
