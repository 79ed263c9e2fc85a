/** A state machine driven by polling: whatever the schedule, its outputs are the fold of its transition function. */
module PolledMachine {
  import opened Collections

  datatype Result<O, E> = Success(output: O) | Failure(error: E)
  datatype Call<S, I> = Call(state: S, input: I)
  datatype Reply<S, O, E> = Reply(state: S, result: Result<O, E>)

  /** The transition function; it may change the state even when it fails. */
  datatype Config<!I, !S, !O, !E> = Config(stf: Call<S, I> -> Reply<S, O, E>)

  datatype Poll<O, E> = Pending | Finished | Yielded(result: Result<O, E>)

  /** What the runtime answers during one poll: whether the input stream is ready, whether a hook has completed. */
  datatype Tick = Tick(inputReady: bool, hookReady: bool)

  datatype Machine<I, S, O> = Machine(inputs: seq<I>, state: S, pending: Option<O>)

  // ---------- the reference: folding the transition function ----------

  function StateAfter<I, S, O, E>(cfg: Config<I, S, O, E>, s: S, inputs: seq<I>): S {
    if inputs == [] then s
    else cfg.stf(Call(StateAfter(cfg, s, inputs[..|inputs| - 1]), inputs[|inputs| - 1])).state
  }

  function ResultsOf<I, S, O, E>(cfg: Config<I, S, O, E>, s: S, inputs: seq<I>): seq<Result<O, E>> {
    if inputs == [] then []
    else
      var front := inputs[..|inputs| - 1];
      ResultsOf(cfg, s, front) + [cfg.stf(Call(StateAfter(cfg, s, front), inputs[|inputs| - 1])).result]
  }

  // ---------- one poll ----------

  function PollNext<I, S, O, E>(cfg: Config<I, S, O, E>, m: Machine<I, S, O>, tick: Tick): (Machine<I, S, O>,
      Poll<O, E>) {
    if m.pending.Some? then
      if tick.hookReady then (m.(pending := None), Yielded(Success(m.pending.value))) else (m, Pending)
    else if !tick.inputReady then (m, Pending)
    else if m.inputs == [] then (m, Finished)
    else
      var reply := cfg.stf(Call(m.state, m.inputs[0]));
      var m' := Machine(m.inputs[1..], reply.state, None);
      match reply.result
      case Failure(e) => (m', Yielded(Failure(e)))
      case Success(out) => if tick.hookReady then (m', Yielded(Success(out))) else (m'.(pending := Some(out)), Pending)
  }

  // ---------- schedules ----------

  datatype Run<I, S, O, E> = Run(m: Machine<I, S, O>, yielded: seq<Result<O, E>>)

  function Polls<I, S, O, E>(cfg: Config<I, S, O, E>, s: S, inputs: seq<I>, ticks: seq<Tick>): Run<I, S, O, E> {
    if ticks == [] then Run(Machine(inputs, s, None), [])
    else
      var before := Polls(cfg, s, inputs, ticks[..|ticks| - 1]);
      var (m, poll) := PollNext(cfg, before.m, ticks[|ticks| - 1]);
      Run(m, if poll.Yielded? then before.yielded + [poll.result] else before.yielded)
  }

  function Consumed<I, S, O, E>(inputs: seq<I>, r: Run<I, S, O, E>): int {
    |inputs| - |r.m.inputs|
  }

  /** The inputs consumed so far are accounted for: yielded, or waiting for their hook. */
  ghost predicate Accounted<I, S, O, E>(cfg: Config<I, S, O, E>, s: S, inputs: seq<I>, r: Run<I, S, O, E>) {
    var c := Consumed(inputs, r);
    && 0 <= c && r.m.inputs == inputs[c..]
    && r.m.state == StateAfter(cfg, s, inputs[..c])
    && ResultsOf(cfg, s, inputs[..c]) == r.yielded + if r.m.pending.Some? then [Success(r.m.pending.value)] else []
  }

  lemma PollAccounted<I, S, O, E>(cfg: Config<I, S, O, E>, s: S, inputs: seq<I>, r: Run<I, S, O, E>, tick: Tick)
    requires Accounted(cfg, s, inputs, r)
    ensures var (m, poll) := PollNext(cfg, r.m, tick);
      Accounted(cfg, s, inputs, Run(m, if poll.Yielded? then r.yielded + [poll.result] else r.yielded))
  {
    var c := Consumed(inputs, r);
    if r.m.pending.None? && tick.inputReady && r.m.inputs != [] {
      assert inputs[c..][0] == inputs[c] && inputs[c..][1..] == inputs[c + 1..];
      assert inputs[..c + 1][..c] == inputs[..c];
    }
  }

  /** Any schedule: yielded results plus the one waiting for its hook are the fold over the consumed inputs, in order;
      none is lost or repeated. */
  lemma {:induction false} PollsAccounted<I, S, O, E>(cfg: Config<I, S, O, E>, s: S, inputs: seq<I>, ticks: seq<Tick>)
    ensures Accounted(cfg, s, inputs, Polls(cfg, s, inputs, ticks))
    decreases |ticks|
  {
    if ticks == [] {
      assert inputs[0..] == inputs && inputs[..0] == [];
    } else {
      PollsAccounted(cfg, s, inputs, ticks[..|ticks| - 1]);
      PollAccounted(cfg, s, inputs, Polls(cfg, s, inputs, ticks[..|ticks| - 1]), ticks[|ticks| - 1]);
    }
  }

  lemma {:induction false} ResultsArePrefixes<I, S, O, E>(cfg: Config<I, S, O, E>, s: S, inputs: seq<I>, n: nat)
    requires n <= |inputs|
    ensures ResultsOf(cfg, s, inputs[..n]) <= ResultsOf(cfg, s, inputs)
    decreases |inputs|
  {
    if n == |inputs| {
      assert inputs[..n] == inputs;
    } else {
      var front := inputs[..|inputs| - 1];
      assert front[..n] == inputs[..n];
      ResultsArePrefixes(cfg, s, front, n);
    }
  }

  /** Whatever the schedule, the outputs so far are a prefix of folding the transition function over all inputs. */
  lemma OutputsArePrefix<I, S, O, E>(cfg: Config<I, S, O, E>, s: S, inputs: seq<I>, ticks: seq<Tick>)
    ensures Polls(cfg, s, inputs, ticks).yielded <= ResultsOf(cfg, s, inputs)
  {
    PollsAccounted(cfg, s, inputs, ticks);
    var r := Polls(cfg, s, inputs, ticks);
    ResultsArePrefixes(cfg, s, inputs, Consumed(inputs, r));
  }

  /** An output is yielded only in a poll in which its hook completed, a poll takes an input only when no hook is
      pending, and then at most one; failures need no hook.  The stream ends exactly when no hook is
      pending and no input left. */
  lemma PollRespectsHook<I, S, O, E>(cfg: Config<I, S, O, E>, m: Machine<I, S, O>, tick: Tick)
    ensures var (m', poll) := PollNext(cfg, m, tick);
      && (poll.Yielded? && poll.result.Success? ==> tick.hookReady && m'.pending.None?)
      && (m.pending.Some? ==> m'.inputs == m.inputs && m'.state == m.state)
      && (m'.inputs != m.inputs ==> m.pending.None? && tick.inputReady && |m'.inputs| == |m.inputs| - 1)
      && (m'.pending.Some? <==> !tick.hookReady && (m.pending.Some? || (m'.inputs != m.inputs && !poll.Yielded?)))
      && (poll.Finished? <==> m.pending.None? && tick.inputReady && m.inputs == [])
  {
    if m.inputs != [] { assert |m.inputs[1..]| == |m.inputs| - 1; }
  }

  /** With all inputs consumed and no hook pending, everything has been yielded. */
  lemma DrainedMeansAll<I, S, O, E>(cfg: Config<I, S, O, E>, s: S, inputs: seq<I>, ticks: seq<Tick>)
    ensures var r := Polls(cfg, s, inputs, ticks);
      r.m.inputs == [] && r.m.pending.None? ==>
        r.yielded == ResultsOf(cfg, s, inputs) && r.m.state == StateAfter(cfg, s, inputs)
  {
    PollsAccounted(cfg, s, inputs, ticks);
    var r := Polls(cfg, s, inputs, ticks);
    if r.m.inputs == [] { assert inputs[..|inputs|] == inputs; }
  }

  /** The polls in which the input stream and the hook are both ready. */
  function ReadyPolls(ticks: seq<Tick>): nat {
    if ticks == [] then 0
    else ReadyPolls(ticks[..|ticks| - 1]) + if ticks[|ticks| - 1] == Tick(true, true) then 1 else 0
  }

  lemma {:induction false} ResultsCount<I, S, O, E>(cfg: Config<I, S, O, E>, s: S, inputs: seq<I>)
    ensures |ResultsOf(cfg, s, inputs)| == |inputs|
    decreases |inputs|
  {
    if inputs != [] { ResultsCount(cfg, s, inputs[..|inputs| - 1]); }
  }

  /** Every poll with both ready yields a result until there is none left. */
  lemma {:induction false} ReadyPollsYield<I, S, O, E>(cfg: Config<I, S, O, E>, s: S, inputs: seq<I>, ticks: seq<Tick>)
    ensures var r := Polls(cfg, s, inputs, ticks); |r.yielded| >= ReadyPolls(ticks) || |r.yielded| == |inputs|
    decreases |ticks|
  {
    if ticks != [] {
      var front := ticks[..|ticks| - 1];
      var r := Polls(cfg, s, inputs, front);
      ReadyPollsYield(cfg, s, inputs, front);
      PollsAccounted(cfg, s, inputs, front);
      ResultsCount(cfg, s, inputs[..Consumed(inputs, r)]);
      OutputsArePrefix(cfg, s, inputs, ticks);
      ResultsCount(cfg, s, inputs);
    }
  }

  /** However the polls are interleaved with unready ones: as many polls with both ready as there are inputs yield the
      whole fold. */
  lemma EnoughPollsYieldAll<I, S, O, E>(cfg: Config<I, S, O, E>, s: S, inputs: seq<I>, ticks: seq<Tick>)
    requires ReadyPolls(ticks) >= |inputs|
    ensures Polls(cfg, s, inputs, ticks).yielded == ResultsOf(cfg, s, inputs)
  {
    ReadyPollsYield(cfg, s, inputs, ticks);
    OutputsArePrefix(cfg, s, inputs, ticks);
    ResultsCount(cfg, s, inputs);
  }

  // ---------- feeding ----------

  /** Feeding in two batches is feeding everything. */
  lemma {:induction false} ResultsCompose<I, S, O, E>(cfg: Config<I, S, O, E>, s: S, a: seq<I>, b: seq<I>)
    ensures StateAfter(cfg, s, a + b) == StateAfter(cfg, StateAfter(cfg, s, a), b)
    ensures ResultsOf(cfg, s, a + b) == ResultsOf(cfg, s, a) + ResultsOf(cfg, StateAfter(cfg, s, a), b)
    decreases |b|
  {
    if b == [] {
      assert a + b == a;
    } else {
      assert (a + b)[..|a + b| - 1] == a + b[..|b| - 1];
      ResultsCompose(cfg, s, a, b[..|b| - 1]);
    }
  }

  /** The polls of one `feed` call: its input is at hand, the hook answers as listed. */
  function FeedPolls(hook: seq<bool>): seq<Tick> {
    seq(|hook|, i requires 0 <= i < |hook| => Tick(true, hook[i]))
  }

  /** Polling a stream of one input: nothing before the first poll, then the transition; a failure is reported at once,
      an output with the first poll in which the hook is ready. */
  lemma {:induction false} OneInputPolled<I, S, O, E>(cfg: Config<I, S, O, E>, s: S, input: I, hook: seq<bool>)
    ensures var r := Polls(cfg, s, [input], FeedPolls(hook)); var reply := cfg.stf(Call(s, input));
      if hook == [] then r == Run(Machine([input], s, None), [])
      else
        && r.m.inputs == [] && r.m.state == reply.state
        && (reply.result.Failure? || true in hook ==> r.yielded == [reply.result] && r.m.pending.None?)
        && (reply.result.Success? && true !in hook ==> r.yielded == [] && r.m.pending == Some(reply.result.output))
    decreases |hook|
  {
    if hook != [] {
      var front := hook[..|hook| - 1];
      assert FeedPolls(hook)[..|hook| - 1] == FeedPolls(front);
      assert hook == front + [hook[|hook| - 1]];
      OneInputPolled(cfg, s, input, front);
    }
  }

  // ---------- the machine as an object ----------

  class StateMachine<I(0), S(0), O(0), E(0)> {
    const config: Config<I, S, O, E>
    var inputs: seq<I>
    var state: S
    var pending: Option<O>

    ghost function Value(): Machine<I, S, O>
      reads this
    {
      Machine(inputs, state, pending)
    }

    constructor (config: Config<I, S, O, E>, state: S, inputs: seq<I>)
      ensures this.config == config && Value() == Machine(inputs, state, None)
    {
      this.config := config;
      this.state := state;
      this.inputs := inputs;
      pending := None;
    }

    method Poll(tick: Tick) returns (poll: Poll<O, E>)
      modifies this
      ensures (Value(), poll) == PollNext(config, old(Value()), tick)
    {
      if pending.Some? {
        var out := pending.value;
        pending := None;
        if tick.hookReady {
          return Yielded(Success(out));
        }
        pending := Some(out);
        return Pending;
      }
      if !tick.inputReady {
        return Pending;
      }
      if inputs == [] {
        return Finished;
      }
      var reply := config.stf(Call(state, inputs[0]));
      inputs := inputs[1..];
      state := reply.state;
      match reply.result {
        case Failure(e) =>
          return Yielded(Failure(e));
        case Success(out) =>
          if tick.hookReady {
            return Yielded(Success(out));
          }
          pending := Some(out);
          return Pending;
      }
    }

    /** Feeds one input directly and waits for the hook while it answers as listed; `None` when it has not completed
        by then.  This is attaching the stream of that one input: same state, same result, at the same poll. */
    method Feed(input: I, hook: seq<bool>) returns (result: Option<Result<O, E>>)
      modifies this`state
      ensures var r := Polls(config, old(state), [input], FeedPolls(hook));
        state == r.m.state && r.yielded == if result.Some? then [result.value] else []
      ensures result.Some? ==>
        state == StateAfter(config, old(state), [input]) && [result.value] == ResultsOf(config, old(state), [input])
      ensures result.None? <==> hook == [] || (config.stf(Call(old(state), input)).result.Success? && true !in hook)
    {
      OneInputPolled(config, state, input, hook);
      if hook == [] {
        return None;
      }
      var reply := config.stf(Call(state, input));
      state := reply.state;
      assert StateAfter(config, old(state), []) == old(state);
      assert ResultsOf(config, old(state), []) == [];
      if reply.result.Failure? {
        return Some(reply.result);
      }
      for i := 0 to |hook|
        invariant state == reply.state && true !in hook[..i]
      {
        if hook[i] {
          assert hook[i] in hook;
          return Some(reply.result);
        }
        assert hook[..i + 1] == hook[..i] + [hook[i]];
      }
      assert hook[..|hook|] == hook;
      return None;
    }
  }
}
