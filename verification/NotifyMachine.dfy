/** The notification machine as the object the node runs; its loops compute the specification. */
module NotifyMachine {
  import opened Collections
  import opened NotifySpec
  import opened NotifyTracking

  class BtcZmqSM {
    const cfg: NotifyCfg
    var filters: seq<nat>
    var lifecycles: map<Txid, Option<Lifecycle>>
    var unburied: seq<Block>

    ghost function Value(): State
      reads this
    {
      State(filters, lifecycles, unburied)
    }

    constructor (cfg: NotifyCfg, unburied: seq<Block>)
      ensures this.cfg == cfg && Value() == State([], map[], unburied)
    {
      this.cfg := cfg;
      filters := [];
      lifecycles := map[];
      this.unburied := unburied;
    }

    method AddPredicate(f: nat)
      modifies this`filters
      ensures Value() == Step(cfg, old(Value()), AddFilter(f)).0
      ensures WithoutFilter(filters, f) == old(filters)
    {
      RemoveInvertsAdd(filters, f);
      filters := filters + [f];
    }

    method RemovePredicate(f: nat)
      modifies this`filters
      ensures Value() == Step(cfg, old(Value()), RmFilter(f)).0
      ensures f in old(filters) ==> multiset(filters) == multiset(old(filters)) - multiset{f}
    {
      var i := 0;
      while i < |filters| && filters[i] != f
        invariant i <= |filters| && f !in filters[..i] && filters == old(filters)
      {
        i := i + 1;
      }
      FirstPosition(filters, f, i);
      if i < |filters| {
        SwapRemoveDrops(filters, i);
        filters := SwapRemove(filters, i);
      }
    }

    /** Whether some filter selects the transaction. */
    method MatchesAny(tx: Tx) returns (found: bool)
      ensures found <==> Matches(cfg, filters, tx)
    {
      for i := 0 to |filters|
        invariant forall f | f in filters[..i] :: !cfg.accepts(FilterQuery(f, tx))
      {
        if cfg.accepts(FilterQuery(filters[i], tx)) {
          assert filters[i] in filters;
          return true;
        }
        assert filters[..i + 1] == filters[..i] + [filters[i]];
      }
      assert filters[..|filters|] == filters;
      return false;
    }

    /** Records the matching transactions of the tip as mined. */
    method MineTip(tip: Block) returns (diff: seq<TxEvent>)
      modifies this`lifecycles
      ensures lifecycles == MineAll(cfg, filters, old(lifecycles), tip, tip.txs)
      ensures diff == EventsFor(cfg, filters, tip.txs, Mined(PlaceOf(tip)))
    {
      hide Matches;
      diff := [];
      for i := 0 to |tip.txs|
        invariant lifecycles == MineAll(cfg, filters, old(lifecycles), tip, tip.txs[..i])
        invariant diff == EventsFor(cfg, filters, tip.txs[..i], Mined(PlaceOf(tip)))
      {
        var tx := tip.txs[i];
        assert tip.txs[..i + 1][..i] == tip.txs[..i];
        var matched := MatchesAny(tx);
        if matched {
          if tx.txid in lifecycles && lifecycles[tx.txid].Some? {
            lifecycles := lifecycles[tx.txid := Some(Lifecycle(lifecycles[tx.txid].value.raw, Some(PlaceOf(tip))))];
          } else {
            lifecycles := lifecycles[tx.txid := Some(Lifecycle(tx, Some(PlaceOf(tip))))];
          }
          diff := diff + [TxEvent(tx, Mined(PlaceOf(tip)))];
        }
      }
      assert tip.txs[..|tip.txs|] == tip.txs;
    }

    /** Forgets every transaction of a buried block and reports the matching ones. */
    method BuryTxs(oldest: Block) returns (diff: seq<TxEvent>)
      modifies this`lifecycles
      ensures lifecycles == old(lifecycles) - Txids(oldest.txs)
      ensures diff == EventsFor(cfg, filters, oldest.txs, Buried(PlaceOf(oldest)))
    {
      hide Matches;
      diff := [];
      for i := 0 to |oldest.txs|
        invariant lifecycles == old(lifecycles) - Txids(oldest.txs[..i])
        invariant diff == EventsFor(cfg, filters, oldest.txs[..i], Buried(PlaceOf(oldest)))
      {
        var tx := oldest.txs[i];
        assert oldest.txs[..i + 1][..i] == oldest.txs[..i];
        MoreTxids(oldest.txs, i);
        lifecycles := lifecycles - {tx.txid};
        assert lifecycles == old(lifecycles) - Txids(oldest.txs[..i + 1]);
        var matched := MatchesAny(tx);
        if matched {
          diff := diff + [TxEvent(tx, Buried(PlaceOf(oldest)))];
        }
      }
      assert oldest.txs[..|oldest.txs|] == oldest.txs;
    }

    method ProcessRawBlock(block: Block) returns (out: Output)
      modifies this
      ensures (Value(), out) == ProcessBlock(cfg, old(Value()), block)
      ensures old(Anchored(Value())) ==> Anchored(Value())
    {
      hide MineAll, EventsFor, EntryAnchored;
      ghost var before := Value();
      if Anchored(before) { BlockKeepsAnchored(cfg, before, block); }
      if unburied == [] || block.prev == unburied[0].hash {
        unburied := [block] + unburied;
      }
      var diff := MineTip(unburied[0]);
      if |unburied| <= cfg.buryDepth {
        return Output(diff, None);
      }
      var oldest := unburied[|unburied| - 1];
      unburied := unburied[..|unburied| - 1];
      var buried := BuryTxs(oldest);
      return Output(diff + buried, Some(BlockBuried(oldest)));
    }

    method ProcessRawTx(tx: Tx) returns (events: seq<TxEvent>)
      modifies this`lifecycles
      ensures (Value(), events) == ProcessTx(cfg, old(Value()), tx)
    {
      hide Matches;
      var matched := MatchesAny(tx);
      if !matched {
        return [];
      }
      if tx.txid !in lifecycles {
        lifecycles := lifecycles[tx.txid := Some(Lifecycle(tx, None))];
        return [];
      }
      if lifecycles[tx.txid].None? {
        lifecycles := lifecycles[tx.txid := Some(Lifecycle(tx, None))];
        return [TxEvent(tx, Mempool)];
      }
      return [];
    }

    /** Drops the transactions mined in a block, in txid order. */
    method DropMinedIn(hash: Hash) returns (diff: seq<TxEvent>)
      modifies this`lifecycles
      ensures lifecycles == old(lifecycles) - TrackedIn(old(lifecycles), hash)
      ensures diff == UnknownEvents(old(lifecycles), Sorted(TrackedIn(old(lifecycles), hash)))
    {
      diff := [];
      var all := lifecycles;
      var txids := Sorted(all.Keys);
      ghost var dropped: seq<Txid> := [];
      for i := 0 to |txids|
        invariant forall t :: t in dropped <==> t in txids[..i] && t in all && MinedIn(all[t], hash)
        invariant Increasing(dropped)
        invariant diff == UnknownEvents(all, dropped)
        invariant forall t :: t in lifecycles <==> t in all && t !in dropped
        invariant forall t | t in lifecycles :: lifecycles[t] == all[t]
      {
        var t := txids[i];
        assert t in txids;
        assert txids[..i + 1] == txids[..i] + [t];
        AllSmaller(txids, i);
        if MinedIn(all[t], hash) {
          diff := diff + [TxEvent(all[t].value.raw, Unknown)];
          IncreasingAppend(dropped, t);
          dropped := dropped + [t];
          lifecycles := lifecycles - {t};
        }
      }
      assert txids[..|txids|] == txids;
      var tracked := TrackedIn(all, hash);
      ListingSize(dropped);
      assert Elems(dropped) == tracked;
      SameListing(dropped, Sorted(tracked), tracked);
    }

    method ProcessDisconnect(hash: Hash) returns (out: Option<Output>)
      modifies this
      ensures (Value(), out) == Disconnect(old(Value()), hash)
    {
      hide UnknownEvents, Sorted, TrackedIn;
      var event := None;
      if unburied != [] {
        if unburied[0].hash != hash {
          return None;
        }
        event := Some(BlockUncled(unburied[0]));
        unburied := unburied[1..];
      }
      var diff := DropMinedIn(hash);
      return Some(Output(diff, event));
    }

    method ProcessSequence(msg: Message) returns (out: Option<Output>)
      requires msg.BlockConnect? || msg.BlockDisconnect? || msg.MempoolAcceptance? || msg.MempoolRemoval?
      modifies this
      ensures (Value(), out) == Step(cfg, old(Value()), msg)
    {
      hide UnknownEvents, Sorted, TrackedIn;
      match msg {
        case BlockConnect(_) =>
          return Some(SILENCE);
        case BlockDisconnect(hash) =>
          out := ProcessDisconnect(hash);
        case MempoolAcceptance(txid) =>
          if txid !in lifecycles {
            lifecycles := lifecycles[txid := None];
            return Some(SILENCE);
          }
          if lifecycles[txid].None? {
            return None;
          }
          var l := lifecycles[txid].value;
          return Some(if l.block.None? then Output([TxEvent(l.raw, Mempool)], None) else SILENCE);
        case MempoolRemoval(txid) =>
          var removed := if txid in lifecycles then lifecycles[txid] else None;
          lifecycles := lifecycles - {txid};
          return Some(if removed.Some? then Output([TxEvent(removed.value.raw, Unknown)], None) else SILENCE);
      }
    }
  }

  lemma FirstPosition(filters: seq<nat>, f: nat, i: nat)
    requires i <= |filters| && f !in filters[..i] && (i < |filters| ==> filters[i] == f)
    ensures Position(filters, f) == i
  {
    var j := Position(filters, f);
    assert forall k | 0 <= k < j :: filters[k] in filters[..j];
    assert forall k | 0 <= k < i :: filters[k] in filters[..i];
  }

  lemma SwapRemoveDrops(filters: seq<nat>, i: nat)
    requires i < |filters|
    ensures multiset(SwapRemove(filters, i)) == multiset(filters) - multiset{filters[i]}
  {
    var last := |filters| - 1;
    assert filters == filters[..last] + [filters[last]];
  }

  lemma MoreTxids(txs: seq<Tx>, i: nat)
    requires i < |txs|
    ensures Txids(txs[..i + 1]) == Txids(txs[..i]) + {txs[i].txid}
  {
    assert txs[..i + 1] == txs[..i] + [txs[i]];
  }

  lemma AllSmaller(q: seq<nat>, i: nat)
    requires i < |q| && Increasing(q)
    ensures forall x | x in q[..i] :: x < q[i]
  {
    forall j: nat | j < i ensures q[..i][j] < q[i] { assert Before(j, i); }
  }

  lemma IncreasingAppend(q: seq<nat>, x: nat)
    requires Increasing(q) && forall y | y in q :: y < x
    ensures Increasing(q + [x])
  {
    forall i: nat, j: nat | i < |q + [x]| && j < |q + [x]| && Before(i, j) ensures (q + [x])[i] < (q + [x])[j] {
      assert q[i] in q;
    }
  }

  lemma ListingSize(q: seq<nat>)
    requires Increasing(q)
    ensures Lists(q, Elems(q))
  {
    assert NoDup(q) by {
      forall i: nat, j: nat | i < |q| && j < |q| && Before(i, j) ensures q[i] != q[j] { assert q[i] < q[j]; }
    }
    NoDupSize(q);
  }
}
