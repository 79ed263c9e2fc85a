/** Leasing claim-funding outputs: none is handed out again until a sync has seen it spent. */
module FundingLeases {
  import opened Collections

  datatype OutPoint = OutPoint(txid: nat, vout: nat)

  /** A wallet output, with whether it qualifies for claim funding. */
  datatype Utxo = Utxo(outpoint: OutPoint, fundsClaims: bool)

  /** What a sync reports: a block's transactions or the mempool's, by the outpoints each spends. */
  datatype Update = NewBlock(txs: seq<seq<OutPoint>>) | MempoolTxs(txs: seq<seq<OutPoint>>)

  // ---------- specification ----------

  predicate Candidate(utxo: Utxo, ignored: set<OutPoint>, leased: set<OutPoint>) {
    utxo.fundsClaims && utxo.outpoint !in ignored && utxo.outpoint !in leased
  }

  /** The outputs a claim may take, in wallet order. */
  function Candidates(unspent: seq<Utxo>, ignored: set<OutPoint>, leased: set<OutPoint>): seq<OutPoint> {
    if unspent == [] then []
    else
      var before := Candidates(unspent[..|unspent| - 1], ignored, leased);
      var last := unspent[|unspent| - 1];
      if Candidate(last, ignored, leased) then before + [last.outpoint] else before
  }

  function SpentBy(txs: seq<seq<OutPoint>>): set<OutPoint> {
    set tx, o | tx in txs && o in tx :: o
  }

  function SpentIn(updates: seq<Update>): set<OutPoint> {
    set u, o | u in updates && o in SpentBy(u.txs) :: o
  }

  lemma {:induction false} CandidatesExact(unspent: seq<Utxo>, ignored: set<OutPoint>, leased: set<OutPoint>,
      o: OutPoint)
    ensures o in Candidates(unspent, ignored, leased) <==>
      o !in ignored && o !in leased && Utxo(o, true) in unspent
    decreases |unspent|
  {
    if unspent != [] {
      var front, last := unspent[..|unspent| - 1], unspent[|unspent| - 1];
      CandidatesExact(front, ignored, leased, o);
      assert forall u :: u in unspent <==> u in front || u == last;
    }
  }

  /** The positions of the outputs that qualify and are neither ignored nor leased. */
  function Free(unspent: seq<Utxo>, ignored: set<OutPoint>, leased: set<OutPoint>): set<nat> {
    set i: nat | i < |unspent| && unspent[i].fundsClaims && unspent[i].outpoint !in ignored + leased
  }

  lemma FreeGrows(front: seq<Utxo>, last: Utxo, ignored: set<OutPoint>, leased: set<OutPoint>)
    ensures var at, more := Sorted(Free(front, ignored, leased)), Sorted(Free(front + [last], ignored, leased));
      more == if last.fundsClaims && last.outpoint !in ignored + leased then at + [|front|] else at
  {
    var some, all := Free(front, ignored, leased), Free(front + [last], ignored, leased);
    var at := Sorted(some);
    assert forall i | 0 <= i < |at| :: at[i] in at;
    assert forall i: nat | i < |front| :: (front + [last])[i] == front[i];
    if last.fundsClaims && last.outpoint !in ignored + leased {
      assert all == some + {|front|};
      assert forall x :: x in at + [|front|] <==> x in at || x == |front|;
      assert Lists(at + [|front|], all);
    } else {
      assert all == some;
    }
    SortedUnique(all);
  }

  /** The candidates are the free outputs, each occurrence once, in wallet order. */
  lemma {:induction false} CandidatesInOrder(unspent: seq<Utxo>, ignored: set<OutPoint>, leased: set<OutPoint>)
    ensures var all, at := Candidates(unspent, ignored, leased), Sorted(Free(unspent, ignored, leased));
      |all| == |at| && forall k | 0 <= k < |at| :: at[k] < |unspent| && all[k] == unspent[at[k]].outpoint
    decreases |unspent|
  {
    hide Free, Sorted;
    if unspent == [] {
      NothingFree(ignored, leased);
    } else {
      var front, last := unspent[..|unspent| - 1], unspent[|unspent| - 1];
      assert unspent == front + [last];
      CandidatesInOrder(front, ignored, leased);
      FreeGrows(front, last, ignored, leased);
    }
  }

  lemma NothingFree(ignored: set<OutPoint>, leased: set<OutPoint>)
    ensures Sorted(Free([], ignored, leased)) == []
  {
    assert Free([], ignored, leased) == {};
  }

  // ---------- the wallet ----------

  class OperatorWallet {
    var unspent: seq<Utxo>
    var leased: set<OutPoint>

    constructor (unspent: seq<Utxo>)
      ensures this.unspent == unspent && leased == {}
    {
      this.unspent := unspent;
      leased := {};
    }

    /** Whether the lease is new. */
    method Lease(o: OutPoint) returns (isNew: bool)
      modifies this`leased
      ensures leased == old(leased) + {o} && isNew == (o !in old(leased))
    {
      isNew := o !in leased;
      leased := leased + {o};
    }

    /** Takes the first candidate and counts the rest; the result was not leased before and is leased now. */
    method ClaimFundingUtxo(ignored: set<OutPoint>) returns (claimed: seq<OutPoint>, remaining: nat)
      modifies this`leased
      ensures var all := Candidates(unspent, ignored, old(leased));
        && (if all == [] then claimed == [] && remaining == 0 else claimed == [all[0]] && remaining == |all| - 1)
        && leased == old(leased) + (set o | o in claimed)
      ensures forall o | o in claimed :: o !in old(leased) && o !in ignored && Utxo(o, true) in unspent
      ensures |claimed| + remaining == |Free(unspent, ignored, old(leased))|
    {
      var found: seq<OutPoint> := [];
      remaining := 0;
      for i := 0 to |unspent|
        invariant leased == old(leased)
        invariant var all := Candidates(unspent[..i], ignored, leased);
          if all == [] then found == [] && remaining == 0 else found == [all[0]] && remaining == |all| - 1
      {
        assert unspent[..i + 1][..i] == unspent[..i];
        if unspent[i].fundsClaims && unspent[i].outpoint !in ignored && unspent[i].outpoint !in leased {
          if found == [] {
            found := [unspent[i].outpoint];
          } else {
            remaining := remaining + 1;
          }
        }
      }
      assert unspent[..|unspent|] == unspent;
      claimed := [];
      CandidatesInOrder(unspent, ignored, leased);
      if found != [] {
        CandidatesExact(unspent, ignored, leased, found[0]);
        var isNew := Lease(found[0]);
        if isNew {
          claimed := found;
        }
      }
    }

    /** Releases exactly the leases whose outpoints the updates spend. */
    method SyncWallet(updates: seq<Update>, unspentAfter: seq<Utxo>)
      modifies this
      ensures leased == old(leased) - SpentIn(updates) && unspent == unspentAfter
    {
      for i := 0 to |updates|
        invariant leased == old(leased) - SpentIn(updates[..i])
      {
        MoreSpent(updates, i);
        Release(updates[i].txs);
      }
      assert updates[..|updates|] == updates;
      unspent := unspentAfter;
    }

    method Release(txs: seq<seq<OutPoint>>)
      modifies this`leased
      ensures leased == old(leased) - SpentBy(txs)
    {
      for i := 0 to |txs|
        invariant leased == old(leased) - SpentBy(txs[..i])
      {
        MoreSpentTxs(txs, i);
        ghost var before := leased;
        var j := 0;
        while j < |txs[i]|
          invariant j <= |txs[i]| && leased == before - (set o | o in txs[i][..j])
        {
          leased := leased - {txs[i][j]};
          assert txs[i][..j + 1] == txs[i][..j] + [txs[i][j]];
          j := j + 1;
        }
        assert txs[i][..j] == txs[i];
      }
      assert txs[..|txs|] == txs;
    }
  }

  lemma MoreSpent(updates: seq<Update>, i: nat)
    requires i < |updates|
    ensures SpentIn(updates[..i + 1]) == SpentIn(updates[..i]) + SpentBy(updates[i].txs)
  {
    var now, before := updates[..i + 1], updates[..i];
    assert now == before + [updates[i]];
    forall o ensures o in SpentIn(now) <==> o in SpentIn(before) || o in SpentBy(updates[i].txs) {
      if o in SpentIn(now) {
        var u :| u in now && o in SpentBy(u.txs);
        assert u in before || u == updates[i];
      }
      if o in SpentIn(before) {
        var u :| u in before && o in SpentBy(u.txs);
        assert u in now;
      }
      assert updates[i] in now;
    }
  }

  lemma MoreSpentTxs(txs: seq<seq<OutPoint>>, i: nat)
    requires i < |txs|
    ensures SpentBy(txs[..i + 1]) == SpentBy(txs[..i]) + set o | o in txs[i]
  {
    var now, before := txs[..i + 1], txs[..i];
    assert now == before + [txs[i]];
    forall o ensures o in SpentBy(now) <==> o in SpentBy(before) || o in txs[i] {
      if o in SpentBy(now) {
        var tx :| tx in now && o in tx;
        assert tx in before || tx == txs[i];
      }
      if o in SpentBy(before) {
        var tx :| tx in before && o in tx;
        assert tx in now;
      }
      assert txs[i] in now;
    }
  }

  // ---------- runs ----------

  datatype WalletEvent = Claim(unspent: seq<Utxo>, ignored: set<OutPoint>) | Sync(updates: seq<Update>)

  /** The outpoint a claim hands out, if any. */
  function Claimed(ev: WalletEvent, leased: set<OutPoint>): seq<OutPoint> {
    if ev.Sync? then [] else
      var all := Candidates(ev.unspent, ev.ignored, leased);
      if all == [] then [] else [all[0]]
  }

  function LeasedAfter(evs: seq<WalletEvent>): set<OutPoint> {
    if evs == [] then {}
    else
      var before, ev := LeasedAfter(evs[..|evs| - 1]), evs[|evs| - 1];
      match ev
      case Claim(_, _) => before + set o | o in Claimed(ev, before)
      case Sync(updates) => before - SpentIn(updates)
  }

  ghost predicate HandsOut(evs: seq<WalletEvent>, i: int, o: OutPoint) {
    0 <= i < |evs| && o in Claimed(evs[i], LeasedAfter(evs[..i]))
  }

  lemma {:induction false} StaysLeased(evs: seq<WalletEvent>, i: nat, j: nat, o: OutPoint)
    requires i < j <= |evs| && HandsOut(evs, i, o)
    requires forall k | i < k < j && evs[k].Sync? :: o !in SpentIn(evs[k].updates)
    ensures o in LeasedAfter(evs[..j])
    decreases j
  {
    assert evs[..j][..j - 1] == evs[..j - 1] && evs[..j][j - 1] == evs[j - 1];
    if i < j - 1 { StaysLeased(evs, i, j - 1, o); }
  }

  /** Over any run, an outpoint handed out twice was seen spent by a sync in between. */
  lemma NoDoubleLease(evs: seq<WalletEvent>, i: nat, j: nat, o: OutPoint)
    requires i < j && HandsOut(evs, i, o) && HandsOut(evs, j, o)
    ensures exists k :: i < k < j && evs[k].Sync? && o in SpentIn(evs[k].updates)
  {
    if forall k | i < k < j && evs[k].Sync? :: o !in SpentIn(evs[k].updates) {
      StaysLeased(evs, i, j, o);
      CandidatesExact(evs[j].unspent, evs[j].ignored, LeasedAfter(evs[..j]), o);
      assert false;
    }
  }
}
