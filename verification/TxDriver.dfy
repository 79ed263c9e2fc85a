/** The transaction driver: a monoid of listeners and a loop that answers each listener exactly once. */
module TxDriver {
  import opened Collections

  type Txid = nat

  datatype Place = Place(height: nat, hash: nat)
  datatype Status = Unknown | Mempool | Mined(place: Place) | Buried(place: Place)

  /** A job submitter waiting for its transaction to reach some status. */
  datatype Listener = Listener(channel: nat)
  datatype Wish = Wish(listener: Listener, status: Status)
  datatype DriverCfg = DriverCfg(satisfies: Wish -> bool, buryDepth: nat)

  type Heap = map<Txid, seq<Listener>>

  // ---------- the monoid ----------

  function Waiting(heap: Heap, txid: Txid): seq<Listener> {
    if txid in heap then heap[txid] else []
  }

  function Merge(a: Heap, b: Heap): Heap {
    map txid | txid in a.Keys + b.Keys :: Waiting(a, txid) + Waiting(b, txid)
  }

  const EMPTY: Heap := map[]

  function Single(txid: Txid, l: Listener): Heap {
    map[txid := [l]]
  }

  function Concat(heaps: seq<Heap>): Heap {
    if heaps == [] then EMPTY else Merge(Concat(heaps[..|heaps| - 1]), heaps[|heaps| - 1])
  }

  lemma MergedWaiting(a: Heap, b: Heap, txid: Txid)
    ensures Waiting(Merge(a, b), txid) == Waiting(a, txid) + Waiting(b, txid)
    ensures txid in Merge(a, b) <==> txid in a || txid in b
  {
  }

  lemma SameHeap(a: Heap, b: Heap)
    requires forall txid :: (txid in a <==> txid in b) && Waiting(a, txid) == Waiting(b, txid)
    ensures a == b
  {
    forall txid | txid in a ensures a[txid] == b[txid] {
      assert Waiting(a, txid) == a[txid] && Waiting(b, txid) == b[txid];
    }
  }

  lemma MergeIdentity(a: Heap)
    ensures Merge(EMPTY, a) == a && Merge(a, EMPTY) == a
  {
    hide Merge;
    forall txid ensures (txid in Merge(EMPTY, a) <==> txid in a) && Waiting(Merge(EMPTY, a), txid) == Waiting(a, txid) {
      MergedWaiting(EMPTY, a, txid);
    }
    forall txid ensures (txid in Merge(a, EMPTY) <==> txid in a) && Waiting(Merge(a, EMPTY), txid) == Waiting(a, txid) {
      MergedWaiting(a, EMPTY, txid);
    }
    SameHeap(Merge(EMPTY, a), a);
    SameHeap(Merge(a, EMPTY), a);
  }

  lemma MergeAssociative(a: Heap, b: Heap, c: Heap)
    ensures Merge(Merge(a, b), c) == Merge(a, Merge(b, c))
  {
    hide Merge, Waiting;
    var left, right := Merge(Merge(a, b), c), Merge(a, Merge(b, c));
    forall txid ensures (txid in left <==> txid in right) && Waiting(left, txid) == Waiting(right, txid) {
      MergedWaiting(a, b, txid);
      MergedWaiting(b, c, txid);
      MergedWaiting(Merge(a, b), c, txid);
      MergedWaiting(a, Merge(b, c), txid);
    }
    SameHeap(left, right);
  }

  /** Folding parts of a list and merging the results is folding the whole list. */
  lemma {:induction false} ConcatSplits(a: seq<Heap>, b: seq<Heap>)
    ensures Concat(a + b) == Merge(Concat(a), Concat(b))
    decreases |b|
  {
    if b == [] {
      assert a + b == a;
      MergeIdentity(Concat(a));
    } else {
      var front, last := b[..|b| - 1], b[|b| - 1];
      assert (a + b)[..|a + b| - 1] == a + front;
      ConcatSplits(a, front);
      MergeAssociative(Concat(a), Concat(front), last);
    }
  }

  // ---------- what the driver does with an event ----------

  /** What the node knows about a submitted transaction, or whether it could be broadcast. */
  datatype Lookup = Known(confirmations: nat, place: Place) | NotKnown(broadcast: bool)

  datatype Event =
    | Job(txid: Txid, listener: Listener, lookup: Lookup)
    | Notice(txid: Txid, status: Status)
    | BlockTick

  datatype Answer = Answer(txid: Txid, listener: Listener, success: bool)

  function StatusFor(cfg: DriverCfg, confirmations: nat, place: Place): Status {
    if confirmations == 0 then Mempool else if confirmations < cfg.buryDepth then Mined(place) else Buried(place)
  }

  /** The listeners a status does not satisfy, in order; and those it does. */
  function Unsatisfied(cfg: DriverCfg, ls: seq<Listener>, status: Status): seq<Listener> {
    if ls == [] then []
    else
      var before := Unsatisfied(cfg, ls[..|ls| - 1], status);
      if cfg.satisfies(Wish(ls[|ls| - 1], status)) then before else before + [ls[|ls| - 1]]
  }

  function Satisfied(cfg: DriverCfg, txid: Txid, ls: seq<Listener>, status: Status): seq<Answer> {
    if ls == [] then []
    else
      var before := Satisfied(cfg, txid, ls[..|ls| - 1], status);
      if cfg.satisfies(Wish(ls[|ls| - 1], status)) then before + [Answer(txid, ls[|ls| - 1], true)] else before
  }

  function Keep(heap: Heap, txid: Txid, ls: seq<Listener>): Heap {
    if ls == [] then heap - {txid} else heap[txid := ls]
  }

  function Step(cfg: DriverCfg, heap: Heap, ev: Event): (Heap, seq<Answer>) {
    match ev
    case Job(txid, l, Known(confirmations, place)) =>
      if cfg.satisfies(Wish(l, StatusFor(cfg, confirmations, place))) then (heap, [Answer(txid, l, true)])
      else (Merge(heap, Single(txid, l)), [])
    case Job(txid, l, NotKnown(broadcast)) =>
      if broadcast then (Merge(heap, Single(txid, l)), []) else (heap, [Answer(txid, l, false)])
    case Notice(txid, status) =>
      if status.Unknown? then (heap, [])
      else
        (Keep(heap, txid, Unsatisfied(cfg, Waiting(heap, txid), status)),
          Satisfied(cfg, txid, Waiting(heap, txid), status))
    case BlockTick => (heap, [])
  }

  // ---------- conservation ----------

  datatype Run = Run(heap: Heap, answers: seq<Answer>)

  function RunAll(cfg: DriverCfg, evs: seq<Event>): Run {
    if evs == [] then Run(EMPTY, [])
    else
      var before := RunAll(cfg, evs[..|evs| - 1]);
      var (heap, more) := Step(cfg, before.heap, evs[|evs| - 1]);
      Run(heap, before.answers + more)
  }

  /** The listeners that were submitted, or answered, for a transaction. */
  function Submitted(evs: seq<Event>, txid: Txid): multiset<Listener> {
    if evs == [] then multiset{}
    else
      Submitted(evs[..|evs| - 1], txid) + Joining(evs[|evs| - 1], txid)
  }

  function Answered(answers: seq<Answer>, txid: Txid): multiset<Listener> {
    if answers == [] then multiset{}
    else
      var a := answers[|answers| - 1];
      Answered(answers[..|answers| - 1], txid) + if a.txid == txid then multiset{a.listener} else multiset{}
  }

  lemma {:induction false} AnsweredAppend(a: seq<Answer>, b: seq<Answer>, txid: Txid)
    ensures Answered(a + b, txid) == Answered(a, txid) + Answered(b, txid)
    decreases |b|
  {
    if b == [] {
      assert a + b == a;
    } else {
      assert (a + b)[..|a + b| - 1] == a + b[..|b| - 1];
      AnsweredAppend(a, b[..|b| - 1], txid);
    }
  }

  lemma AnsweredOneMore(answers: seq<Answer>, a: Answer, t: Txid)
    ensures Answered(answers + [a], t)
         == Answered(answers, t) + if a.txid == t then multiset{a.listener} else multiset{}
  {
    assert (answers + [a])[..|answers|] == answers;
  }

  /** Every listener of a notified transaction is answered or keeps waiting, and nobody else is answered. */
  lemma {:induction false} NoticeSplits(cfg: DriverCfg, txid: Txid, ls: seq<Listener>, status: Status)
    ensures Answered(Satisfied(cfg, txid, ls, status), txid) + multiset(Unsatisfied(cfg, ls, status)) == multiset(ls)
    decreases |ls|
  {
    hide Answered;
    if ls == [] {
      NoAnswers(txid);
    } else {
      var front, last := ls[..|ls| - 1], ls[|ls| - 1];
      assert ls == front + [last];
      NoticeSplits(cfg, txid, front, status);
      AnsweredOneMore(Satisfied(cfg, txid, front, status), Answer(txid, last, true), txid);
    }
  }

  lemma {:induction false} NoticeElsewhere(cfg: DriverCfg, txid: Txid, ls: seq<Listener>, status: Status, t: Txid)
    requires t != txid
    ensures Answered(Satisfied(cfg, txid, ls, status), t) == multiset{}
    decreases |ls|
  {
    hide Answered;
    if ls == [] {
      NoAnswers(t);
    } else {
      var front, last := ls[..|ls| - 1], ls[|ls| - 1];
      NoticeElsewhere(cfg, txid, front, status, t);
      AnsweredOneMore(Satisfied(cfg, txid, front, status), Answer(txid, last, true), t);
    }
  }

  lemma JoinedWaiting(heap: Heap, txid: Txid, l: Listener, t: Txid)
    ensures Waiting(Merge(heap, Single(txid, l)), t) == Waiting(heap, t) + if txid == t then [l] else []
  {
    hide Merge;
    MergedWaiting(heap, Single(txid, l), t);
  }

  lemma KeptWaiting(heap: Heap, txid: Txid, ls: seq<Listener>, t: Txid)
    ensures Waiting(Keep(heap, txid, ls), t) == if t == txid then ls else Waiting(heap, t)
  {
  }

  lemma OneAnswer(a: Answer, t: Txid)
    ensures Answered([a], t) == if a.txid == t then multiset{a.listener} else multiset{}
  {
    assert [a][..0] == [];
  }

  function Joining(ev: Event, t: Txid): multiset<Listener> {
    if ev.Job? && ev.txid == t then multiset{ev.listener} else multiset{}
  }

  lemma JobConserves(cfg: DriverCfg, heap: Heap, ev: Event, t: Txid)
    requires ev.Job?
    ensures var (heap', more) := Step(cfg, heap, ev);
      multiset(Waiting(heap, t)) + Joining(ev, t) == Answered(more, t) + multiset(Waiting(heap', t))
  {
    hide Merge, Waiting, Answered;
    NoAnswers(t);
    JoinedWaiting(heap, ev.txid, ev.listener, t);
    OneAnswer(Answer(ev.txid, ev.listener, true), t);
    OneAnswer(Answer(ev.txid, ev.listener, false), t);
  }

  lemma NoticeConserves(cfg: DriverCfg, heap: Heap, txid: Txid, status: Status, t: Txid)
    ensures var (heap', more) := Step(cfg, heap, Notice(txid, status));
      multiset(Waiting(heap, t)) == Answered(more, t) + multiset(Waiting(heap', t))
  {
    hide Merge, Waiting, Keep, Answered, Satisfied, Unsatisfied;
    NoAnswers(t);
    KeptWaiting(heap, txid, Unsatisfied(cfg, Waiting(heap, txid), status), t);
    if t == txid {
      NoticeSplits(cfg, txid, Waiting(heap, txid), status);
    } else {
      NoticeElsewhere(cfg, txid, Waiting(heap, txid), status, t);
    }
  }

  lemma StepConserves(cfg: DriverCfg, heap: Heap, ev: Event, t: Txid)
    ensures var (heap', more) := Step(cfg, heap, ev);
      multiset(Waiting(heap, t)) + Joining(ev, t) == Answered(more, t) + multiset(Waiting(heap', t))
  {
    hide Merge, Waiting, Keep, Answered, Satisfied, Unsatisfied;
    NoAnswers(t);
    match ev
    case Job(_, _, _) => JobConserves(cfg, heap, ev, t);
    case Notice(txid, status) => NoticeConserves(cfg, heap, txid, status, t);
    case BlockTick =>
  }

  lemma NoAnswers(t: Txid)
    ensures Answered([], t) == multiset{}
  {
  }

  /** Over any run and for every transaction: the submitted listeners are exactly those answered plus those still
      waiting, with multiplicity, so nobody is lost and nobody is answered twice. */
  lemma {:induction false} ListenersConserved(cfg: DriverCfg, evs: seq<Event>, t: Txid)
    ensures var r := RunAll(cfg, evs);
      Submitted(evs, t) == Answered(r.answers, t) + multiset(Waiting(r.heap, t))
    decreases |evs|
  {
    hide Step, Waiting, Joining;
    if evs == [] {
      NoAnswers(t);
      NobodyWaits(t);
    } else {
      var front, ev := evs[..|evs| - 1], evs[|evs| - 1];
      ListenersConserved(cfg, front, t);
      var before := RunAll(cfg, front);
      StepConserves(cfg, before.heap, ev, t);
      var (heap, more) := Step(cfg, before.heap, ev);
      AnsweredAppend(before.answers, more, t);
      assert Submitted(evs, t) == Answered(before.answers, t) + (multiset(Waiting(before.heap, t)) + Joining(ev, t));
      assert RunAll(cfg, evs) == Run(heap, before.answers + more);
    }
  }

  lemma NobodyWaits(t: Txid)
    ensures Waiting(EMPTY, t) == []
  {
  }

  // ---------- who is waiting and who was answered ----------

  /** What the node's answer means: unconfirmed is in the mempool, confirmed is mined, and buried from the bury depth
      on. */
  predicate KnownAs(cfg: DriverCfg, lookup: Lookup, status: Status) {
    && lookup.Known?
    && match status
       case Unknown => false
       case Mempool => lookup.confirmations == 0
       case Mined(place) => place == lookup.place && 1 <= lookup.confirmations < cfg.buryDepth
       case Buried(place) => place == lookup.place && 1 <= lookup.confirmations && cfg.buryDepth <= lookup.confirmations
  }

  lemma StatusIsKnownAs(cfg: DriverCfg, confirmations: nat, place: Place, status: Status)
    ensures KnownAs(cfg, Known(confirmations, place), status) <==> status == StatusFor(cfg, confirmations, place)
  {
  }

  /** The event is a job of the listener that does not settle it: broadcast now, or known in a status it does not
      accept. */
  ghost predicate Joins(cfg: DriverCfg, ev: Event, txid: Txid, l: Listener) {
    && ev.Job? && ev.txid == txid && ev.listener == l
    && (ev.lookup.NotKnown? ==> ev.lookup.broadcast)
    && forall status | KnownAs(cfg, ev.lookup, status) :: !cfg.satisfies(Wish(l, status))
  }

  /** The event reports a status the listener accepts. */
  predicate Pleases(cfg: DriverCfg, ev: Event, txid: Txid, l: Listener) {
    ev.Notice? && ev.txid == txid && !ev.status.Unknown? && cfg.satisfies(Wish(l, ev.status))
  }

  /** The listener joined at a position, and no status handled for its transaction since then satisfied it. */
  ghost predicate WaitsSince(cfg: DriverCfg, evs: seq<Event>, txid: Txid, l: Listener, j: int) {
    && 0 <= j < |evs| && Joins(cfg, evs[j], txid, l)
    && forall k | j < k < |evs| :: !Pleases(cfg, evs[k], txid, l)
  }

  lemma {:induction false} LeftUnsatisfied(cfg: DriverCfg, ls: seq<Listener>, status: Status, l: Listener)
    ensures l in Unsatisfied(cfg, ls, status) <==> l in ls && !cfg.satisfies(Wish(l, status))
    decreases |ls|
  {
    if ls != [] {
      var front, last := ls[..|ls| - 1], ls[|ls| - 1];
      assert ls == front + [last];
      LeftUnsatisfied(cfg, front, status, l);
    }
  }

  lemma {:induction false} AnsweredSatisfied(cfg: DriverCfg, txid: Txid, ls: seq<Listener>, status: Status, a: Answer)
    ensures a in Satisfied(cfg, txid, ls, status)
       <==> a.txid == txid && a.success && a.listener in ls && cfg.satisfies(Wish(a.listener, status))
    decreases |ls|
  {
    if ls != [] {
      var front, last := ls[..|ls| - 1], ls[|ls| - 1];
      assert ls == front + [last];
      AnsweredSatisfied(cfg, txid, front, status, a);
    }
  }

  /** Only joining makes a listener wait, and only an acceptable status ends its wait. */
  lemma WaitingStep(cfg: DriverCfg, heap: Heap, ev: Event, txid: Txid, l: Listener)
    ensures l in Waiting(Step(cfg, heap, ev).0, txid)
       <==> Joins(cfg, ev, txid, l) || (l in Waiting(heap, txid) && !Pleases(cfg, ev, txid, l))
  {
    hide Merge, Waiting, Keep, Satisfied, Unsatisfied, KnownAs;
    match ev
    case Job(t, o, lookup) =>
      JoinedWaiting(heap, t, o, txid);
      if lookup.Known? {
        forall status
          ensures KnownAs(cfg, lookup, status) <==> status == StatusFor(cfg, lookup.confirmations, lookup.place)
        {
          StatusIsKnownAs(cfg, lookup.confirmations, lookup.place, status);
        }
      } else {
        NothingKnown(cfg, lookup);
      }
    case Notice(t, status) =>
      KeptWaiting(heap, t, Unsatisfied(cfg, Waiting(heap, t), status), txid);
      LeftUnsatisfied(cfg, Waiting(heap, t), status, l);
    case BlockTick =>
  }

  lemma NothingKnown(cfg: DriverCfg, lookup: Lookup)
    requires lookup.NotKnown?
    ensures forall status :: !KnownAs(cfg, lookup, status)
  {
  }

  /** A listener waits if and only if it joined the run and its condition was false on every non-Unknown status
      since. */
  lemma {:induction false} WaitersAreUnsatisfied(cfg: DriverCfg, evs: seq<Event>, txid: Txid, l: Listener)
    ensures l in Waiting(RunAll(cfg, evs).heap, txid) <==> exists j :: WaitsSince(cfg, evs, txid, l, j)
    decreases |evs|
  {
    hide Step, Joins, Pleases, Waiting;
    if evs == [] {
      NobodyWaits(txid);
    } else {
      var front, ev := evs[..|evs| - 1], evs[|evs| - 1];
      assert evs == front + [ev];
      WaitersAreUnsatisfied(cfg, front, txid, l);
      WaitingStep(cfg, RunAll(cfg, front).heap, ev, txid, l);
      if Joins(cfg, ev, txid, l) {
        assert WaitsSince(cfg, evs, txid, l, |front|);
      } else if l in Waiting(RunAll(cfg, evs).heap, txid) {
        var j :| WaitsSince(cfg, front, txid, l, j);
        assert WaitsSince(cfg, evs, txid, l, j);
      }
      if exists j :: WaitsSince(cfg, evs, txid, l, j) {
        var j :| WaitsSince(cfg, evs, txid, l, j);
        if j < |front| { assert WaitsSince(cfg, front, txid, l, j); }
      }
    }
  }

  /** The answers given at one event of a run. */
  function AnswersAt(cfg: DriverCfg, evs: seq<Event>, i: nat): seq<Answer>
    requires i < |evs|
  {
    Step(cfg, RunAll(cfg, evs[..i]).heap, evs[i]).1
  }

  /** The answers of a run are those given at its events, in order. */
  lemma AnswersInOrder(cfg: DriverCfg, evs: seq<Event>, ev: Event)
    ensures RunAll(cfg, evs + [ev]).answers == RunAll(cfg, evs).answers + AnswersAt(cfg, evs + [ev], |evs|)
  {
    hide Step;
    assert (evs + [ev])[..|evs|] == evs;
  }

  /** The listener submitted the transaction when it was already known in a status it accepts. */
  ghost predicate SettledOnArrival(cfg: DriverCfg, ev: Event, txid: Txid, l: Listener) {
    && ev.Job? && ev.txid == txid && ev.listener == l
    && exists status :: KnownAs(cfg, ev.lookup, status) && cfg.satisfies(Wish(l, status))
  }

  /** Over every run and at each of its events: a listener is told of success if and only if it submits a transaction
      already known in a status it accepts, or has been waiting since it joined and the first status it accepts
      arrives; it is told of failure if and only if it submits an unknown transaction that cannot be broadcast. */
  lemma AnswersAreEarned(cfg: DriverCfg, evs: seq<Event>, i: nat, txid: Txid, l: Listener)
    requires i < |evs|
    ensures Answer(txid, l, true) in AnswersAt(cfg, evs, i)
       <==> || SettledOnArrival(cfg, evs[i], txid, l)
            || (Pleases(cfg, evs[i], txid, l) && exists j :: WaitsSince(cfg, evs[..i], txid, l, j))
    ensures Answer(txid, l, false) in AnswersAt(cfg, evs, i) <==> evs[i] == Job(txid, l, NotKnown(false))
  {
    hide RunAll, WaitsSince, Merge, Satisfied, Unsatisfied, Keep, KnownAs;
    var heap := RunAll(cfg, evs[..i]).heap;
    WaitersAreUnsatisfied(cfg, evs[..i], txid, l);
    match evs[i]
    case Job(t, o, lookup) =>
      if lookup.Known? {
        forall status
          ensures KnownAs(cfg, lookup, status) <==> status == StatusFor(cfg, lookup.confirmations, lookup.place)
        {
          StatusIsKnownAs(cfg, lookup.confirmations, lookup.place, status);
        }
      } else {
        NothingKnown(cfg, lookup);
      }
    case Notice(t, status) =>
      AnsweredSatisfied(cfg, t, Waiting(heap, t), status, Answer(txid, l, true));
      AnsweredSatisfied(cfg, t, Waiting(heap, t), status, Answer(txid, l, false));
    case BlockTick =>
  }

  // ---------- the loops ----------

  /** The first heap with the listeners of the second for the listed transactions. */
  ghost predicate MergedUpTo(a: Heap, b: Heap, done: seq<Txid>, r: Heap) {
    forall t ::
      && (t in r <==> t in a || t in done)
      && Waiting(r, t) == Waiting(a, t) + if t in done then Waiting(b, t) else []
  }

  lemma MergeOneMore(a: Heap, b: Heap, done: seq<Txid>, r: Heap, k: Txid)
    requires MergedUpTo(a, b, done, r) && k !in done && k in b
    ensures MergedUpTo(a, b, done + [k], r[k := Waiting(r, k) + b[k]])
  {
    var r' := r[k := Waiting(r, k) + b[k]];
    forall t ensures (t in r' <==> t in a || t in done + [k])
             ensures Waiting(r', t) == Waiting(a, t) + if t in done + [k] then Waiting(b, t) else [] {
      assert t in done + [k] <==> t in done || t == k;
      assert t in r <==> t in a || t in done;
      if t != k { assert Waiting(r', t) == Waiting(r, t); }
    }
  }

  lemma MergedAll(a: Heap, b: Heap, done: seq<Txid>, r: Heap)
    requires MergedUpTo(a, b, done, r) && forall t :: t in done <==> t in b
    ensures r == Merge(a, b)
  {
    hide Merge;
    forall t ensures (t in r <==> t in Merge(a, b)) && Waiting(r, t) == Waiting(Merge(a, b), t) {
      MergedWaiting(a, b, t);
      assert t in r <==> t in a || t in done;
    }
    SameHeap(r, Merge(a, b));
  }

  /** Adds the listeners of the second heap to the first, key by key. */
  method MergeHeaps(a: Heap, b: Heap) returns (r: Heap)
    ensures r == Merge(a, b)
  {
    hide Merge, MergedUpTo;
    r := a;
    var txids := Sorted(b.Keys);
    assert MergedUpTo(a, b, [], r) by { NothingMerged(a, b); }
    for i := 0 to |txids|
      invariant MergedUpTo(a, b, txids[..i], r)
    {
      var k := txids[i];
      assert k in txids;
      assert k !in txids[..i] by { forall j: nat | j < i ensures txids[..i][j] != k { assert Before(j, i); } }
      assert txids[..i + 1] == txids[..i] + [k];
      MergeOneMore(a, b, txids[..i], r, k);
      if k in r {
        r := r[k := r[k] + b[k]];
      } else {
        assert [] + b[k] == b[k];
        r := r[k := b[k]];
      }
    }
    assert txids[..|txids|] == txids;
    MergedAll(a, b, txids, r);
  }

  lemma NothingMerged(a: Heap, b: Heap)
    ensures MergedUpTo(a, b, [], a)
  {
  }

  function Leftovers(txid: Txid, ls: seq<Listener>): Heap {
    if ls == [] then EMPTY else map[txid := ls]
  }

  lemma LeftoversGrow(txid: Txid, ls: seq<Listener>, l: Listener)
    ensures Merge(Leftovers(txid, ls), Single(txid, l)) == Leftovers(txid, ls + [l])
  {
    hide Merge;
    var merged := Merge(Leftovers(txid, ls), Single(txid, l));
    forall t
      ensures (t in merged <==> t in Leftovers(txid, ls + [l]))
      ensures Waiting(merged, t) == Waiting(Leftovers(txid, ls + [l]), t)
    {
      MergedWaiting(Leftovers(txid, ls), Single(txid, l), t);
    }
    SameHeap(merged, Leftovers(txid, ls + [l]));
  }

  lemma PutBack(heap: Heap, txid: Txid, ls: seq<Listener>)
    ensures Merge(heap - {txid}, Leftovers(txid, ls)) == Keep(heap, txid, ls)
  {
    hide Merge;
    var merged := Merge(heap - {txid}, Leftovers(txid, ls));
    forall t
      ensures (t in merged <==> t in Keep(heap, txid, ls)) && Waiting(merged, t) == Waiting(Keep(heap, txid, ls), t)
    {
      MergedWaiting(heap - {txid}, Leftovers(txid, ls), t);
    }
    SameHeap(merged, Keep(heap, txid, ls));
  }

  class Driver {
    const cfg: DriverCfg
    var activeJobs: Heap

    constructor (cfg: DriverCfg)
      ensures this.cfg == cfg && activeJobs == EMPTY
    {
      this.cfg := cfg;
      activeJobs := EMPTY;
    }

    method HandleJob(txid: Txid, l: Listener, lookup: Lookup) returns (answers: seq<Answer>)
      modifies this
      ensures (activeJobs, answers) == Step(cfg, old(activeJobs), Job(txid, l, lookup))
    {
      hide Merge;
      match lookup {
        case Known(confirmations, place) =>
          var status := StatusFor(cfg, confirmations, place);
          if cfg.satisfies(Wish(l, status)) {
            return [Answer(txid, l, true)];
          }
        case NotKnown(broadcast) =>
          if !broadcast {
            return [Answer(txid, l, false)];
          }
      }
      activeJobs := MergeHeaps(activeJobs, Single(txid, l));
      return [];
    }

    /** Takes the listeners out, answers the satisfied ones and merges the rest back in. */
    method HandleNotice(txid: Txid, status: Status) returns (answers: seq<Answer>)
      modifies this
      ensures (activeJobs, answers) == Step(cfg, old(activeJobs), Notice(txid, status))
    {
      hide Merge, Keep;
      answers := [];
      if status.Unknown? {
        return;
      }
      var listeners := if txid in activeJobs then activeJobs[txid] else [];
      var heap := activeJobs;
      activeJobs := activeJobs - {txid};
      var leftovers := EMPTY;
      for i := 0 to |listeners|
        invariant activeJobs == heap - {txid}
        invariant leftovers == Leftovers(txid, Unsatisfied(cfg, listeners[..i], status))
        invariant answers == Satisfied(cfg, txid, listeners[..i], status)
      {
        var l := listeners[i];
        assert listeners[..i + 1][..i] == listeners[..i];
        if cfg.satisfies(Wish(l, status)) {
          answers := answers + [Answer(txid, l, true)];
        } else {
          LeftoversGrow(txid, Unsatisfied(cfg, listeners[..i], status), l);
          leftovers := MergeHeaps(leftovers, Single(txid, l));
        }
      }
      assert listeners[..|listeners|] == listeners;
      activeJobs := MergeHeaps(activeJobs, leftovers);
      PutBack(heap, txid, Unsatisfied(cfg, listeners, status));
    }
  }
}
