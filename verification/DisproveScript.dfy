/** The stack shuffling of the public-inputs disprove script, on a machine for the opcodes it uses. */
module DisproveScript {
  import opened Collections

  datatype Op = Push(n: nat) | Roll | ToAlt | FromAlt | Equal | BoolAnd | Not

  /** Both stacks have their top first; `Failed` is a script that does not validate. */
  datatype VM = VM(stack: seq<nat>, alt: seq<nat>) | Failed

  function Bool(b: bool): nat { if b then 1 else 0 }

  function Exec(op: Op, vm: VM): VM {
    if vm.Failed? then Failed
    else
      var s, a := vm.stack, vm.alt;
      match op
      case Push(n) => VM([n] + s, a)
      case Roll =>
        if s == [] || s[0] >= |s| - 1 then Failed
        else
          var n, rest := s[0], s[1..];
          VM([rest[n]] + rest[..n] + rest[n + 1..], a)
      case ToAlt => if s == [] then Failed else VM(s[1..], [s[0]] + a)
      case FromAlt => if a == [] then Failed else VM([a[0]] + s, a[1..])
      case Equal => if |s| < 2 then Failed else VM([Bool(s[0] == s[1])] + s[2..], a)
      case BoolAnd => if |s| < 2 then Failed else VM([Bool(s[0] != 0 && s[1] != 0)] + s[2..], a)
      case Not => if s == [] then Failed else VM([Bool(s[0] == 0)] + s[1..], a)
  }

  function ExecAll(ops: seq<Op>, vm: VM): VM {
    if ops == [] then vm else ExecAll(ops[1..], Exec(ops[0], vm))
  }

  lemma {:induction false} ExecAppend(p: seq<Op>, q: seq<Op>, vm: VM)
    ensures ExecAll(p + q, vm) == ExecAll(q, ExecAll(p, vm))
    decreases |p|
  {
    if p == [] {
      assert p + q == q;
    } else {
      assert (p + q)[1..] == p[1..] + q;
      ExecAppend(p[1..], q, Exec(p[0], vm));
    }
  }

  // ---------- the fragments, as the script builder unrolls them ----------

  /** Fetches n items from the altstack. */
  function FromAlts(n: nat): seq<Op> {
    if n == 0 then [] else [FromAlt] + FromAlts(n - 1)
  }

  /** Rolls up the deepest of n items, then of the n - 1 left, down to two, each straight to the altstack. */
  function RollsToAlt(n: nat): seq<Op> {
    if n <= 1 then [] else [Push(n - 1), Roll, ToAlt] + RollsToAlt(n - 1)
  }

  /** Sends a block of n items to the altstack, deepest first. */
  function SendBlock(n: nat): seq<Op> {
    RollsToAlt(n) + [ToAlt]
  }

  /** Reverses the n topmost items. */
  function ReverseBlock(n: nat): seq<Op> {
    RollsToAlt(n) + FromAlts(if n == 0 then 0 else n - 1)
  }

  /** Fetches words of m items from the altstack, keeping the order within a word. */
  function FetchWord(m: nat): seq<Op> {
    FromAlts(m) + ReverseBlock(m)
  }

  function FetchWords(k: nat, m: nat): seq<Op> {
    if k == 0 then [] else FetchWord(m) + FetchWords(k - 1, m)
  }

  /** Digs out the k items below the n topmost ones, one after the other. */
  function DigOut(k: nat, n: nat): seq<Op> {
    if k == 0 then [] else [Push(n), Roll, ToAlt] + DigOut(k - 1, n)
  }

  /** Compares all but the last pair of two strings of length n, each verdict to the altstack. */
  function Compares(n: nat): seq<Op> {
    if n <= 1 then [] else [Push(n), Roll, Equal, ToAlt] + Compares(n - 1)
  }

  /** Fetches n - 1 verdicts and conjoins them. */
  function Folds(n: nat): seq<Op> {
    if n <= 1 then [] else [FromAlt, BoolAnd] + Folds(n - 1)
  }

  function CompareBlocks(n: nat): seq<Op> {
    Compares(n) + [Equal] + Folds(n) + [Not]
  }

  // ---------- single steps ----------

  lemma Exec3(a: Op, b: Op, c: Op, rest: seq<Op>, vm: VM)
    ensures ExecAll([a, b, c] + rest, vm) == ExecAll(rest, Exec(c, Exec(b, Exec(a, vm))))
  {
    hide Exec, ExecAll;
    assert [a, b, c] + rest == [a] + ([b] + ([c] + rest));
    ExecCons(a, [b] + ([c] + rest), vm);
    ExecCons(b, [c] + rest, Exec(a, vm));
    ExecCons(c, rest, Exec(b, Exec(a, vm)));
  }

  lemma ExecCons(op: Op, rest: seq<Op>, vm: VM)
    ensures ExecAll([op] + rest, vm) == ExecAll(rest, Exec(op, vm))
  {
    hide Exec;
    assert ([op] + rest)[1..] == rest;
  }

  /** Rolling from depth n brings that item to the top. */
  lemma RollUp(n: nat, top: seq<nat>, x: nat, below: seq<nat>, alt: seq<nat>)
    requires |top| == n
    ensures Exec(Roll, Exec(Push(n), VM(top + [x] + below, alt))) == VM([x] + (top + below), alt)
  {
    var s := top + [x] + below;
    assert ([n] + s)[1..] == s;
    assert s[..n] == top && s[n] == x && s[n + 1..] == below;
    assert [x] + top + below == [x] + (top + below);
  }

  /** Rolling from depth n and sending to the altstack takes out the item at depth n. */
  lemma RollOut(n: nat, top: seq<nat>, x: nat, below: seq<nat>, alt: seq<nat>)
    requires |top| == n
    ensures Exec(ToAlt, Exec(Roll, Exec(Push(n), VM(top + [x] + below, alt)))) == VM(top + below, [x] + alt)
  {
    RollUp(n, top, x, below, alt);
    assert ([x] + (top + below))[1..] == top + below;
  }

  // ---------- what the fragments do ----------

  /** Fetching pops the altstack onto the stack, so the block arrives reversed. */
  lemma {:induction false} FromAltsMoves(block: seq<nat>, stack: seq<nat>, alt: seq<nat>)
    ensures ExecAll(FromAlts(|block|), VM(stack, block + alt)) == VM(Backwards(block) + stack, alt)
    decreases |block|
  {
    if block == [] {
      assert block + alt == alt && Backwards(block) + stack == stack;
    } else {
      assert (block + alt)[1..] == block[1..] + alt;
      assert ([FromAlt] + FromAlts(|block| - 1))[1..] == FromAlts(|block| - 1);
      FromAltsMoves(block[1..], [block[0]] + stack, alt);
      assert Backwards(block[1..]) + ([block[0]] + stack) == Backwards(block) + stack;
    }
  }

  /** The roll loop leaves the top item and puts the rest of the block on the altstack, in the same order. */
  lemma {:induction false} RollsToAltMoves(block: seq<nat>, below: seq<nat>, alt: seq<nat>)
    requires block != []
    ensures ExecAll(RollsToAlt(|block|), VM(block + below, alt)) == VM([block[0]] + below, block[1..] + alt)
    decreases |block|
  {
    hide Exec;
    var n := |block|;
    if n == 1 {
      assert block == [block[0]] && block[1..] + alt == alt;
    } else {
      var front, last := block[..n - 1], block[n - 1];
      assert block + below == front + [last] + below;
      Exec3(Push(n - 1), Roll, ToAlt, RollsToAlt(n - 1), VM(block + below, alt));
      RollOut(n - 1, front, last, below, alt);
      RollsToAltMoves(front, below, [last] + alt);
      assert front[1..] + ([last] + alt) == block[1..] + alt;
    }
  }

  /** A block sent to the altstack lies there in the same order; what is below stays untouched. */
  lemma SendBlockMoves(block: seq<nat>, below: seq<nat>, alt: seq<nat>)
    requires block != []
    ensures ExecAll(SendBlock(|block|), VM(block + below, alt)) == VM(below, block + alt)
  {
    RollsToAltMoves(block, below, alt);
    ExecAppend(RollsToAlt(|block|), [ToAlt], VM(block + below, alt));
    assert ([block[0]] + below)[1..] == below;
    assert [block[0]] + (block[1..] + alt) == block + alt;
  }

  /** The reversal loops reverse their block for any contents, whatever lies below it or on the altstack. */
  lemma ReverseBlockReverses(block: seq<nat>, below: seq<nat>, alt: seq<nat>)
    ensures ExecAll(ReverseBlock(|block|), VM(block + below, alt)) == VM(Backwards(block) + below, alt)
  {
    hide Exec, RollsToAlt, FromAlts, ExecAll, Backwards;
    if block == [] {
      NothingToReverse(VM(below, alt));
      assert block + below == below && Backwards(block) + below == below by { BackwardsLength(block); }
    } else {
      BackwardsStep(block);
      RollsToAltMoves(block, below, alt);
      ExecAppend(RollsToAlt(|block|), FromAlts(|block| - 1), VM(block + below, alt));
      FromAltsMoves(block[1..], [block[0]] + below, alt);
      assert Backwards(block[1..]) + ([block[0]] + below) == Backwards(block) + below;
    }
  }

  lemma BackwardsStep(block: seq<nat>)
    requires block != []
    ensures Backwards(block) == Backwards(block[1..]) + [block[0]]
  {
  }

  lemma NothingToReverse(vm: VM)
    ensures ExecAll(ReverseBlock(0), vm) == vm
  {
    assert ReverseBlock(0) == [];
  }

  /** A word is fetched with its order kept. */
  lemma FetchWordKeepsOrder(word: seq<nat>, stack: seq<nat>, alt: seq<nat>)
    ensures ExecAll(FetchWord(|word|), VM(stack, word + alt)) == VM(word + stack, alt)
  {
    BackwardsTwice(word);
    ExecAppend(FromAlts(|word|), ReverseBlock(|word|), VM(stack, word + alt));
    FromAltsMoves(word, stack, alt);
    ReverseBlockReverses(Backwards(word), stack, alt);
  }

  /** The words of a block in reverse order, each with its items in place. */
  function WordsReversed(block: seq<nat>, k: nat, m: nat): seq<nat>
    requires |block| == k * m
  {
    if k == 0 then []
    else
      assert k * m == m + (k - 1) * m;
      WordsReversed(block[m..], k - 1, m) + block[..m]
  }

  lemma WordPlace(k: nat, m: nat, w: nat, i: nat)
    requires w < k && i < m
    ensures 0 <= w * m + i < k * m
  {
    assert w * m + m <= k * m by {
      assert (k - w - 1) * m >= 0;
      assert (w + 1) * m + (k - w - 1) * m == k * m;
    }
  }

  /** Item i of word w lies in word k - 1 - w of the result. */
  predicate WordKept(block: seq<nat>, result: seq<nat>, k: nat, m: nat, w: nat, i: nat)
    requires w < k
  {
    var from, to := w * m + i, (k - 1 - w) * m + i;
    |block| == |result| == k * m && 0 <= from < k * m && 0 <= to < k * m && result[to] == block[from]
  }

  /** Word w of the block becomes word k - 1 - w, item for item. */
  lemma {:induction false} WordsReversedAt(block: seq<nat>, k: nat, m: nat, w: nat, i: nat)
    requires |block| == k * m && w < k && i < m
    ensures WordKept(block, WordsReversed(block, k, m), k, m, w, i)
    decreases k
  {
    WordPlace(k, m, w, i);
    WordPlace(k, m, k - 1 - w, i);
    assert k * m == m + (k - 1) * m;
    var rest := block[m..];
    WordsReversedSize(rest, k - 1, m);
    if w > 0 {
      assert (k - 1 - 1 - (w - 1)) * m == (k - 1 - w) * m && (w - 1) * m + m == w * m;
      WordsReversedAt(rest, k - 1, m, w - 1, i);
    }
  }

  lemma {:induction false} WordsReversedSize(block: seq<nat>, k: nat, m: nat)
    requires |block| == k * m
    ensures |WordsReversed(block, k, m)| == k * m
    decreases k
  {
    if k > 0 {
      assert k * m == m + (k - 1) * m;
      WordsReversedSize(block[m..], k - 1, m);
    }
  }

  lemma {:induction false} FetchWordsReverses(block: seq<nat>, k: nat, m: nat, stack: seq<nat>, alt: seq<nat>)
    requires |block| == k * m
    ensures ExecAll(FetchWords(k, m), VM(stack, block + alt)) == VM(WordsReversed(block, k, m) + stack, alt)
    decreases k
  {
    if k == 0 {
      assert block + alt == alt && WordsReversed(block, k, m) + stack == stack;
    } else {
      assert k * m == m + (k - 1) * m;
      var word, rest := block[..m], block[m..];
      assert block + alt == word + (rest + alt);
      ExecAppend(FetchWord(m), FetchWords(k - 1, m), VM(stack, block + alt));
      FetchWordKeepsOrder(word, stack, rest + alt);
      FetchWordsReverses(rest, k - 1, m, word + stack, alt);
      assert WordsReversed(rest, k - 1, m) + (word + stack) == WordsReversed(block, k, m) + stack;
    }
  }

  /** Digging out k items below the n topmost leaves those in place and stacks the dug-out ones up reversed. */
  lemma {:induction false} DigOutMoves(top: seq<nat>, dug: seq<nat>, below: seq<nat>, alt: seq<nat>)
    ensures ExecAll(DigOut(|dug|, |top|), VM(top + dug + below, alt)) == VM(top + below, Backwards(dug) + alt)
    decreases |dug|
  {
    if dug == [] {
      assert top + dug + below == top + below && Backwards(dug) + alt == alt;
    } else {
      var n := |top|;
      assert top + dug + below == top + [dug[0]] + (dug[1..] + below);
      Exec3(Push(n), Roll, ToAlt, DigOut(|dug| - 1, n), VM(top + dug + below, alt));
      RollOut(n, top, dug[0], dug[1..] + below, alt);
      assert top + (dug[1..] + below) == top + dug[1..] + below;
      DigOutMoves(top, dug[1..], below, [dug[0]] + alt);
      assert Backwards(dug[1..]) + ([dug[0]] + alt) == Backwards(dug) + alt;
    }
  }

  /** Dug-out items fetched back come out in their old order. */
  lemma DigOutRoundTrip(top: seq<nat>, dug: seq<nat>, below: seq<nat>, alt: seq<nat>)
    ensures ExecAll(DigOut(|dug|, |top|) + FromAlts(|dug|), VM(top + dug + below, alt)) == VM(dug + top + below, alt)
  {
    BackwardsTwice(dug);
    ExecAppend(DigOut(|dug|, |top|), FromAlts(|dug|), VM(top + dug + below, alt));
    DigOutMoves(top, dug, below, alt);
    FromAltsMoves(Backwards(dug), top + below, alt);
    assert dug + (top + below) == dug + top + below;
  }

  // ---------- the comparison ----------

  /** The verdicts on positions other than the last, last one on top. */
  function Verdicts(a: seq<nat>, b: seq<nat>): seq<nat>
    requires |a| == |b|
  {
    if |a| <= 1 then [] else Verdicts(a[1..], b[1..]) + [Bool(a[0] == b[0])]
  }

  lemma Exec4(a: Op, b: Op, c: Op, d: Op, rest: seq<Op>, vm: VM)
    ensures ExecAll([a, b, c, d] + rest, vm) == ExecAll(rest, Exec(d, Exec(c, Exec(b, Exec(a, vm)))))
  {
    hide Exec, ExecAll;
    assert [a, b, c, d] + rest == [a] + ([b, c, d] + rest);
    ExecCons(a, [b, c, d] + rest, vm);
    Exec3(b, c, d, rest, Exec(a, vm));
  }

  /** One round compares the two top bytes and sends the verdict to the altstack. */
  lemma CompareRound(a: seq<nat>, b: seq<nat>, below: seq<nat>, alt: seq<nat>)
    requires |a| == |b| > 1
    ensures Exec(ToAlt, Exec(Equal, Exec(Roll, Exec(Push(|a|), VM(a + b + below, alt)))))
         == VM(a[1..] + b[1..] + below, [Bool(a[0] == b[0])] + alt)
  {
    hide Exec;
    var rest := a[1..] + b[1..] + below;
    assert a + b + below == a + [b[0]] + (b[1..] + below);
    RollUp(|a|, a, b[0], b[1..] + below, alt);
    assert [b[0]] + (a + (b[1..] + below)) == [b[0], a[0]] + rest;
    CompareTop(b[0], a[0], rest, alt);
  }

  lemma CompareTop(x: nat, y: nat, rest: seq<nat>, alt: seq<nat>)
    ensures Exec(ToAlt, Exec(Equal, VM([x, y] + rest, alt))) == VM(rest, [Bool(x == y)] + alt)
  {
    assert ([x, y] + rest)[2..] == rest;
    assert ([Bool(x == y)] + rest)[1..] == rest;
  }

  lemma {:induction false} ComparesAll(a: seq<nat>, b: seq<nat>, below: seq<nat>, alt: seq<nat>)
    requires |a| == |b| > 0
    ensures ExecAll(Compares(|a|), VM(a + b + below, alt))
         == VM([a[|a| - 1], b[|b| - 1]] + below, Verdicts(a, b) + alt)
    decreases |a|
  {
    hide Exec;
    if |a| == 1 {
      assert a + b + below == [a[0], b[0]] + below && Verdicts(a, b) + alt == alt;
    } else {
      Exec4(Push(|a|), Roll, Equal, ToAlt, Compares(|a| - 1), VM(a + b + below, alt));
      CompareRound(a, b, below, alt);
      ComparesAll(a[1..], b[1..], below, [Bool(a[0] == b[0])] + alt);
      assert Verdicts(a[1..], b[1..]) + ([Bool(a[0] == b[0])] + alt) == Verdicts(a, b) + alt;
    }
  }

  predicate AllTrue(q: seq<nat>) {
    forall i | 0 <= i < |q| :: q[i] != 0
  }

  lemma {:induction false} FoldsAll(verdicts: seq<nat>, acc: nat, below: seq<nat>, alt: seq<nat>)
    ensures ExecAll(Folds(|verdicts| + 1), VM([acc] + below, verdicts + alt))
         == VM([if verdicts == [] then acc else Bool(acc != 0 && AllTrue(verdicts))] + below, alt)
    decreases |verdicts|
  {
    if verdicts == [] {
      assert verdicts + alt == alt;
    } else {
      var n := |verdicts|;
      var rest := Folds(n);
      assert ([FromAlt, BoolAnd] + rest)[1..] == [BoolAnd] + rest && ([BoolAnd] + rest)[1..] == rest;
      assert (verdicts + alt)[1..] == verdicts[1..] + alt;
      var fetched := [verdicts[0]] + ([acc] + below);
      assert fetched[2..] == below;
      FoldsAll(verdicts[1..], Bool(verdicts[0] != 0 && acc != 0), below, alt);
      assert AllTrue(verdicts) <==> verdicts[0] != 0 && AllTrue(verdicts[1..]) by {
        assert verdicts == [verdicts[0]] + verdicts[1..];
      }
    }
  }

  lemma {:induction false} VerdictsMean(a: seq<nat>, b: seq<nat>)
    requires |a| == |b| > 0
    ensures |Verdicts(a, b)| == |a| - 1
    ensures a[|a| - 1] == b[|b| - 1] && AllTrue(Verdicts(a, b)) <==> a == b
    decreases |a|
  {
    if |a| > 1 {
      VerdictsMean(a[1..], b[1..]);
      var v := Verdicts(a[1..], b[1..]);
      assert a == [a[0]] + a[1..] && b == [b[0]] + b[1..];
      assert AllTrue(v + [Bool(a[0] == b[0])]) <==> AllTrue(v) && a[0] == b[0] by {
        assert (v + [Bool(a[0] == b[0])])[|v|] == Bool(a[0] == b[0]);
        assert forall i | 0 <= i < |v| :: (v + [Bool(a[0] == b[0])])[i] == v[i];
      }
    }
  }

  /** The comparison leaves true exactly when the two strings differ somewhere; the stack and the altstack below
      are untouched. */
  lemma CompareBlocksDecides(a: seq<nat>, b: seq<nat>, below: seq<nat>, alt: seq<nat>)
    requires |a| == |b| > 0
    ensures ExecAll(CompareBlocks(|a|), VM(a + b + below, alt)) == VM([Bool(a != b)] + below, alt)
  {
    var n := |a|;
    var start := VM(a + b + below, alt);
    var verdicts := Verdicts(a, b);
    ExecAppend(Compares(n) + [Equal] + Folds(n), [Not], start);
    ExecAppend(Compares(n) + [Equal], Folds(n), start);
    ExecAppend(Compares(n), [Equal], start);
    ComparesAll(a, b, below, alt);
    var last := [a[n - 1], b[n - 1]] + below;
    assert last[2..] == below;
    var acc := Bool(a[n - 1] == b[n - 1]);
    assert ExecAll([Equal], VM(last, verdicts + alt)) == VM([acc] + below, verdicts + alt);
    VerdictsMean(a, b);
    FoldsAll(verdicts, acc, below, alt);
    var folded := if verdicts == [] then acc else Bool(acc != 0 && AllTrue(verdicts));
    assert folded == Bool(a == b);
    assert ([folded] + below)[1..] == below;
  }

  // ---------- the script's own sizes ----------

  const NIBBLES: nat := 128
  const WORDS: nat := 16
  const WORD_NIBBLES: nat := 8

  /** Sending the 128 nibbles away and fetching them as 16 words turns the word order round and keeps each word. */
  lemma NibblesToWords(block: seq<nat>, below: seq<nat>, alt: seq<nat>)
    requires |block| == NIBBLES
    ensures ExecAll(SendBlock(NIBBLES) + FetchWords(WORDS, WORD_NIBBLES), VM(block + below, alt))
         == VM(WordsReversed(block, WORDS, WORD_NIBBLES) + below, alt)
    ensures forall w: nat, i: nat | w < WORDS && i < WORD_NIBBLES ::
      WordKept(block, WordsReversed(block, WORDS, WORD_NIBBLES), WORDS, WORD_NIBBLES, w, i)
  {
    hide ExecAll, WordsReversed, FetchWords, SendBlock, WordKept;
    forall w: nat, i: nat | w < WORDS && i < WORD_NIBBLES
      ensures WordKept(block, WordsReversed(block, WORDS, WORD_NIBBLES), WORDS, WORD_NIBBLES, w, i)
    {
      WordsReversedAt(block, WORDS, WORD_NIBBLES, w, i);
    }
    ExecAppend(SendBlock(NIBBLES), FetchWords(WORDS, WORD_NIBBLES), VM(block + below, alt));
    SendBlockMoves(block, below, alt);
    FetchWordsReverses(block, WORDS, WORD_NIBBLES, below, alt);
  }

  // ---------- emitting and running ----------

  /** Unrolls the reversal loops. */
  method EmitReverse(n: nat) returns (ops: seq<Op>)
    ensures ops == ReverseBlock(n)
    ensures forall block, below, alt | |block| == n ::
      ExecAll(ops, VM(block + below, alt)) == VM(Backwards(block) + below, alt)
  {
    hide Exec, ExecAll, Backwards;
    ops := [];
    var i := n;
    while i > 1
      invariant 0 <= i <= n && ops + RollsToAlt(i) == RollsToAlt(n)
    {
      ops := ops + [Push(i - 1), Roll, ToAlt];
      i := i - 1;
    }
    assert ops == RollsToAlt(n);
    var left := if n == 0 then 0 else n - 1;
    while left > 0
      invariant 0 <= left && ops + FromAlts(left) == ReverseBlock(n)
    {
      ops := ops + [FromAlt];
      left := left - 1;
    }
    forall block, below, alt | |block| == n
      ensures ExecAll(ReverseBlock(n), VM(block + below, alt)) == VM(Backwards(block) + below, alt)
    {
      ReverseBlockReverses(block, below, alt);
    }
  }

  /** Unrolls the comparison loops. */
  method EmitCompare(n: nat) returns (ops: seq<Op>)
    requires n > 0
    ensures ops == CompareBlocks(n)
    ensures forall a, b, below, alt | |a| == n && |b| == n ::
      ExecAll(ops, VM(a + b + below, alt)) == VM([Bool(a != b)] + below, alt)
  {
    hide Exec, ExecAll;
    ops := [];
    var i := n;
    while i > 1
      invariant 1 <= i <= n && ops + Compares(i) == Compares(n)
    {
      ops := ops + [Push(i), Roll, Equal, ToAlt];
      i := i - 1;
    }
    ops := ops + [Equal];
    assert ops == Compares(n) + [Equal];
    i := n;
    while i > 1
      invariant 1 <= i <= n && ops + Folds(i) == Compares(n) + [Equal] + Folds(n)
    {
      ops := ops + [FromAlt, BoolAnd];
      i := i - 1;
    }
    ops := ops + [Not];
    forall a, b, below, alt | |a| == n && |b| == n
      ensures ExecAll(CompareBlocks(n), VM(a + b + below, alt)) == VM([Bool(a != b)] + below, alt)
    {
      CompareBlocksDecides(a, b, below, alt);
    }
  }

  /** Executes a script opcode by opcode. */
  method Run(ops: seq<Op>, vm: VM) returns (r: VM)
    ensures r == ExecAll(ops, vm)
  {
    hide Exec;
    r := vm;
    for i := 0 to |ops|
      invariant ExecAll(ops[i..], r) == ExecAll(ops, vm)
    {
      assert ops[i..][1..] == ops[i + 1..];
      r := Exec(ops[i], r);
    }
  }
}
