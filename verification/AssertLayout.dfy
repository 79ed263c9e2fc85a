/** Laying assertion data out over outputs and transactions. */
module AssertLayout {
  import opened Collections

  const MAX_STACK_ELEMS: nat := 1000
  const MAX_TX_V3_SIZE: nat := 40000

  datatype SizeData = SizeData(maxStackSize: nat, txSizePerUtxo: nat)

  datatype Layout = Layout(maxElementsPerUtxo: nat, maxUtxosPerTx: nat, numTxs: nat, remainder: Option<nat>)

  /** So many elements in one output respect the stack limit. */
  predicate StackFits(size: SizeData, elements: nat) {
    elements * size.maxStackSize <= MAX_STACK_ELEMS
  }

  /** So many outputs with so many elements each respect the transaction weight limit. */
  predicate WeightFits(size: SizeData, elements: nat, utxos: nat) {
    utxos * (size.txSizePerUtxo * elements) <= MAX_TX_V3_SIZE
  }

  /** One output with so many elements respects both limits. */
  predicate Fits(size: SizeData, elements: nat) {
    StackFits(size, elements) && WeightFits(size, elements, 1)
  }

  function MostByStack(size: SizeData): nat
    requires size.maxStackSize > 0
  {
    MAX_STACK_ELEMS / size.maxStackSize
  }

  function MostByWeight(size: SizeData, elements: nat): nat
    requires size.txSizePerUtxo > 0 && elements > 0
  {
    PositiveProduct(size.txSizePerUtxo, elements);
    MAX_TX_V3_SIZE / (size.txSizePerUtxo * elements)
  }

  lemma MostByStackIff(size: SizeData, e: nat)
    requires size.maxStackSize > 0
    ensures e <= MostByStack(size) <==> StackFits(size, e)
  {
    DivBound(MAX_STACK_ELEMS, size.maxStackSize, e);
  }

  lemma MostByWeightIff(size: SizeData, e: nat, u: nat)
    requires size.txSizePerUtxo > 0 && e > 0
    ensures u <= MostByWeight(size, e) <==> WeightFits(size, e, u)
  {
    PositiveProduct(size.txSizePerUtxo, e);
    DivBound(MAX_TX_V3_SIZE, size.txSizePerUtxo * e, u);
  }

  lemma MulMono(a: nat, b: nat, c: nat)
    requires a <= b
    ensures a * c <= b * c
  {
  }

  lemma DivBound(n: nat, d: nat, q: nat)
    requires d > 0
    ensures q <= n / d <==> q * d <= n
  {
    var r := n % d;
    assert n == n / d * d + r;
    if q <= n / d { MulMono(q, n / d, d); } else { MulMono(n / d + 1, q, d); assert (n / d + 1) * d == n / d * d + d; }
  }

  /** Whole transactions and a remainder smaller than one account for every element. */
  predicate Places(l: Layout, numElements: nat) {
    var perTx := l.maxElementsPerUtxo * l.maxUtxosPerTx;
    var rest := if l.remainder.Some? then l.remainder.value else 0;
    l.numTxs * perTx + rest == numElements && rest < perTx && l.remainder != Some(0)
  }

  function Split(elements: nat, utxos: nat, numElements: nat): (l: Layout)
    requires elements > 0 && utxos > 0
    ensures l.maxElementsPerUtxo == elements && l.maxUtxosPerTx == utxos && Places(l, numElements)
  {
    PositiveProduct(elements, utxos);
    DivMod(numElements, elements * utxos);
    var rest := numElements % (elements * utxos);
    Layout(elements, utxos, numElements / (elements * utxos), if rest == 0 then None else Some(rest))
  }

  /** For positive sizes: the largest count of elements per output that respects both limits, as many such outputs
      as a transaction holds, and every element placed; fails exactly when one element exceeds a limit. */
  method LayoutFrom(size: SizeData, numElements: nat) returns (layout: Option<Layout>)
    requires size.maxStackSize > 0 && size.txSizePerUtxo > 0
    ensures layout.None? <==> !Fits(size, 1)
    ensures layout.Some? ==>
      var l := layout.value;
      && Fits(size, l.maxElementsPerUtxo) && (forall e: nat | Fits(size, e) :: e <= l.maxElementsPerUtxo)
      && (forall u: nat :: u <= l.maxUtxosPerTx <==> WeightFits(size, l.maxElementsPerUtxo, u))
      && l.maxElementsPerUtxo > 0 && l.maxUtxosPerTx > 0
      && Places(l, numElements)
  {
    hide StackFits, WeightFits, MostByStack, MostByWeight, Places, Split;
    var most := MostByStack(size);
    forall e: nat ensures e <= most <==> StackFits(size, e) { MostByStackIff(size, e); }
    if most == 0 {
      assert !StackFits(size, 1);
      return None;
    }
    var e: nat := most;
    while e != 0
      invariant e <= most
      invariant forall bigger: nat | bigger > e :: !Fits(size, bigger)
    {
      var utxos := MostByWeight(size, e);
      forall u: nat ensures u <= utxos <==> WeightFits(size, e, u) { MostByWeightIff(size, e, u); }
      if utxos > 0 {
        assert Fits(size, e);
        SmallerFits(size, 1, e);
        return Some(Split(e, utxos, numElements));
      }
      assert !WeightFits(size, e, 1);
      e := e - 1;
    }
    return None;
  }

  lemma PositiveProduct(a: nat, b: nat)
    requires a > 0 && b > 0
    ensures a * b > 0
  {
  }

  lemma DivMod(n: nat, d: nat)
    requires d > 0
    ensures n / d * d + n % d == n && n % d < d
  {
  }

  lemma SmallerFits(size: SizeData, a: nat, b: nat)
    requires a <= b && Fits(size, b)
    ensures Fits(size, a)
  {
    MulMono(a, b, size.maxStackSize);
    MulMono(a, b, size.txSizePerUtxo);
    assert size.txSizePerUtxo * a == a * size.txSizePerUtxo && size.txSizePerUtxo * b == b * size.txSizePerUtxo;
  }
}
