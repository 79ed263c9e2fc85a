/** The unburied queue and the burial events together spell the active chain. */
module NotifyChain {
  import opened Collections
  import opened NotifySpec

  /** The reference: a chain that grows and shrinks at its end. */
  function ChainAfter(chain: seq<Block>, msg: Message): seq<Block> {
    match msg
    case RawBlock(block) => chain + [block]
    case BlockDisconnect(_) => if chain == [] then [] else chain[..|chain| - 1]
    case _ => chain
  }

  /** What the node guarantees: blocks extend the chain, disconnects name its end and stay above the buried part,
      an acceptance does not repeat while its transaction is still missing. */
  predicate Expected(s: State, chain: seq<Block>, buried: seq<Block>, msg: Message) {
    match msg
    case RawBlock(block) => chain == [] || block.prev == chain[|chain| - 1].hash
    case BlockDisconnect(hash) => |buried| < |chain| && chain[|chain| - 1].hash == hash
    case MempoolAcceptance(txid) => txid in s.lifecycles ==> s.lifecycles[txid].Some?
    case _ => true
  }

  datatype Run = Run(s: State, chain: seq<Block>, buried: seq<Block>)

  function NewlyBuried(out: Option<Output>): seq<Block> {
    if out.Some? && out.value.blockEvent.Some? && out.value.blockEvent.value.BlockBuried?
    then [out.value.blockEvent.value.block] else []
  }

  function Advance(cfg: NotifyCfg, r: Run, msg: Message): Run {
    var (s, out) := Step(cfg, r.s, msg);
    Run(s, ChainAfter(r.chain, msg), r.buried + NewlyBuried(out))
  }

  function RunAll(cfg: NotifyCfg, init: seq<Block>, msgs: seq<Message>): Run {
    if msgs == [] then Run(State([], map[], init), Backwards(init), [])
    else Advance(cfg, RunAll(cfg, init, msgs[..|msgs| - 1]), msgs[|msgs| - 1])
  }

  ghost predicate ExpectedRun(cfg: NotifyCfg, init: seq<Block>, msgs: seq<Message>) {
    msgs == [] ||
    (&& ExpectedRun(cfg, init, msgs[..|msgs| - 1])
     && var r := RunAll(cfg, init, msgs[..|msgs| - 1]); Expected(r.s, r.chain, r.buried, msgs[|msgs| - 1]))
  }

  /** Buried blocks followed by the unburied ones, oldest first, are the active chain. */
  ghost predicate Spells(cfg: NotifyCfg, r: Run) {
    r.buried + Backwards(r.s.unburied) == r.chain && |r.s.unburied| <= cfg.buryDepth
  }

  lemma TipIsChainEnd(cfg: NotifyCfg, r: Run)
    requires Spells(cfg, r)
    ensures |r.chain| == |r.buried| + |r.s.unburied|
    ensures r.s.unburied != [] ==> r.chain != [] && r.chain[|r.chain| - 1] == r.s.unburied[0]
  {
    BackwardsLength(r.s.unburied);
    if r.s.unburied != [] { BackwardsLength(r.s.unburied[1..]); }
  }

  /** A block event is emitted exactly when the queue was full, for the oldest unburied block, with exactly
      `buryDepth` blocks on top of it. */
  lemma ConnectSpells(cfg: NotifyCfg, r: Run, block: Block)
    requires Spells(cfg, r) && Expected(r.s, r.chain, r.buried, RawBlock(block))
    ensures var r' := Advance(cfg, r, RawBlock(block)); var newly := NewlyBuried(Step(cfg, r.s, RawBlock(block)).1);
      && Spells(cfg, r')
      && (newly != [] <==> |r.s.unburied| == cfg.buryDepth)
      && (newly != [] ==> newly == [r'.chain[|r.buried|]] && |r'.chain| - 1 - |r.buried| == cfg.buryDepth)
  {
    hide MineAll, EventsFor;
    TipIsChainEnd(cfg, r);
    var queue := [block] + r.s.unburied;
    assert queue[1..] == r.s.unburied;
    assert Push(r.s, block) == queue;
    assert r.chain + [block] == r.buried + Backwards(queue);
    if |queue| > cfg.buryDepth { BackwardsDropsLast(queue); }
  }

  lemma DisconnectSpells(cfg: NotifyCfg, r: Run, hash: Hash)
    requires Spells(cfg, r) && Expected(r.s, r.chain, r.buried, BlockDisconnect(hash))
    ensures var r' := Advance(cfg, r, BlockDisconnect(hash)); var out := Step(cfg, r.s, BlockDisconnect(hash)).1;
      && Spells(cfg, r') && out.Some? && NewlyBuried(out) == []
      && out.value.blockEvent == Some(BlockUncled(r.chain[|r.chain| - 1]))
  {
    hide UnknownEvents, Sorted;
    TipIsChainEnd(cfg, r);
    var q := r.s.unburied;
    assert r.buried + (Backwards(q[1..]) + [q[0]]) == (r.buried + Backwards(q[1..])) + [q[0]];
  }

  lemma OtherSpells(cfg: NotifyCfg, r: Run, msg: Message)
    requires Spells(cfg, r) && Expected(r.s, r.chain, r.buried, msg) && !msg.RawBlock? && !msg.BlockDisconnect?
    ensures Spells(cfg, Advance(cfg, r, msg)) && Step(cfg, r.s, msg).1.Some?
    ensures Advance(cfg, r, msg).buried == r.buried && Advance(cfg, r, msg).chain == r.chain
  {
    hide Backwards, Matches, Position, SwapRemove;
    assert r.buried + [] == r.buried;
  }

  /** Over every run above the buried part: burials and queue spell the active chain, the queue never exceeds the
      bury depth and the machine never panics. */
  lemma {:induction false} RunsSpellChain(cfg: NotifyCfg, init: seq<Block>, msgs: seq<Message>)
    requires |init| <= cfg.buryDepth && ExpectedRun(cfg, init, msgs)
    ensures Spells(cfg, RunAll(cfg, init, msgs))
    ensures msgs != [] ==> Step(cfg, RunAll(cfg, init, msgs[..|msgs| - 1]).s, msgs[|msgs| - 1]).1.Some?
    decreases |msgs|
  {
    hide Step, Expected, Advance, Backwards;
    if msgs == [] {
      assert [] + Backwards(init) == Backwards(init);
    } else {
      var front, msg := msgs[..|msgs| - 1], msgs[|msgs| - 1];
      RunsSpellChain(cfg, init, front);
      AnySpells(cfg, RunAll(cfg, init, front), msg);
    }
  }

  lemma AnySpells(cfg: NotifyCfg, r: Run, msg: Message)
    requires Spells(cfg, r) && Expected(r.s, r.chain, r.buried, msg)
    ensures Spells(cfg, Advance(cfg, r, msg)) && Step(cfg, r.s, msg).1.Some?
    ensures r.buried <= Advance(cfg, r, msg).buried
  {
    hide Spells, Expected, ProcessBlock, Disconnect, ProcessTx, Accept, Remove, WithoutFilter;
    match msg
    case RawBlock(block) => ConnectSpells(cfg, r, block);
    case BlockDisconnect(hash) => DisconnectSpells(cfg, r, hash);
    case _ => OtherSpells(cfg, r, msg);
  }

  /** Every burial of a run: one block, the next of the active chain, with exactly `buryDepth` blocks on top. */
  lemma BurialsInOrder(cfg: NotifyCfg, init: seq<Block>, msgs: seq<Message>, msg: Message)
    requires |init| <= cfg.buryDepth && ExpectedRun(cfg, init, msgs + [msg])
    ensures var r := RunAll(cfg, init, msgs); var r' := RunAll(cfg, init, msgs + [msg]);
      && (r'.buried == r.buried || (msg.RawBlock? && |r.buried| < |r'.chain|
        && r'.buried == r.buried + [r'.chain[|r.buried|]]
                                    && |r'.chain| - 1 - |r.buried| == cfg.buryDepth))
      && r'.buried <= r'.chain
      && (r'.buried != r.buried <==> msg.RawBlock? && |r.s.unburied| == cfg.buryDepth)
  {
    hide Step, Expected, Backwards;
    var all := msgs + [msg];
    assert all[..|all| - 1] == msgs && all[|all| - 1] == msg;
    var r := RunAll(cfg, init, msgs);
    RunsSpellChain(cfg, init, msgs);
    RunsSpellChain(cfg, init, all);
    match msg
    case RawBlock(block) => ConnectSpells(cfg, r, block);
    case BlockDisconnect(hash) => DisconnectSpells(cfg, r, hash);
    case _ => OtherSpells(cfg, r, msg);
  }
}
