/**
 * The values computed by `Core.forward_onestep` in
 * `draw/nn/single_layer/inference.py`, element by element over the reals.
 * The squashing functions are parameters assumed only to stay within their
 * open ranges: the logistic sigmoid in (0, 1) and tanh in (-1, 1).
 */
module InferenceCell {

  /** The four gate pre-activations at one element: the outputs of `lstm_f`, `lstm_i`, `lstm_tanh`, `lstm_o`. */
  datatype GateInputs = GateInputs(forget: real, input: real, candidate: real, output: real)

  /** `sigmoid` maps into (0, 1) and `tanh` into (-1, 1). */
  ghost predicate Squashes(sigmoid: real -> real, tanh: real -> real)
  {
    && (forall a :: 0.0 < sigmoid(a) < 1.0)
    && (forall a :: -1.0 < tanh(a) < 1.0)
  }

  function Abs(a: real): real
  {
    if a < 0.0 then -a else a
  }

  /** `next_c`: the forget-gated previous cell plus the input-gated candidate. */
  function NextCell(prevC: real, g: GateInputs, sigmoid: real -> real, tanh: real -> real): real
  {
    sigmoid(g.forget) * prevC + sigmoid(g.input) * tanh(g.candidate)
  }

  /** `next_h`: the output gate times the squashed new cell. */
  function NextHidden(nextC: real, g: GateInputs, sigmoid: real -> real, tanh: real -> real): real
  {
    sigmoid(g.output) * tanh(nextC)
  }

  /** A factor strictly between -1 and 1 shrinks a magnitude strictly below 1. */
  lemma ProductBelowOne(p: real, q: real)
    requires 0.0 < p < 1.0 && -1.0 < q < 1.0
    ensures -1.0 < p * q < 1.0
  {
    if q >= 0.0 {
      assert p * q <= q;
    } else {
      assert p * q >= q;
    }
  }

  /** A factor in (0, 1) does not grow a magnitude. */
  lemma ScaledNoLarger(p: real, c: real)
    requires 0.0 < p < 1.0
    ensures Abs(p * c) <= Abs(c)
  {
    var pc := p * c;
    if c >= 0.0 {
      var q := 1.0 - p;
      assert q * c >= 0.0 && p * c >= 0.0;
      assert c - pc == q * c;
      assert 0.0 <= pc <= c;
    } else {
      var q, m := 1.0 - p, -c;
      assert q > 0.0 && m > 0.0;
      assert q * m > 0.0 && p * m > 0.0;
      assert pc - c == q * m && pc == -(p * m);
      assert c < pc < 0.0;
      assert Abs(pc) == -pc && Abs(c) == m;
    }
  }

  /** Every element of `next_h` lies strictly between -1 and 1, whatever the previous cell. */
  lemma HiddenBounded(prevC: real, g: GateInputs, sigmoid: real -> real, tanh: real -> real)
    requires Squashes(sigmoid, tanh)
    ensures -1.0 < NextHidden(NextCell(prevC, g, sigmoid, tanh), g, sigmoid, tanh) < 1.0
  {
    ProductBelowOne(sigmoid(g.output), tanh(NextCell(prevC, g, sigmoid, tanh)));
  }

  /** One step grows the magnitude of the cell by less than 1. */
  lemma CellGrowth(prevC: real, g: GateInputs, sigmoid: real -> real, tanh: real -> real)
    requires Squashes(sigmoid, tanh)
    ensures Abs(NextCell(prevC, g, sigmoid, tanh)) < Abs(prevC) + 1.0
  {
    ScaledNoLarger(sigmoid(g.forget), prevC);
    ProductBelowOne(sigmoid(g.input), tanh(g.candidate));
  }

  /** The cell after running the core over `gates`, one step per entry, from `c0`. */
  function CellAfter(c0: real, gates: seq<GateInputs>, sigmoid: real -> real, tanh: real -> real): real
  {
    if gates == [] then c0
    else NextCell(CellAfter(c0, gates[..|gates| - 1], sigmoid, tanh), gates[|gates| - 1], sigmoid, tanh)
  }

  /** From any starting cell, each step adds less than one to the cell's magnitude. */
  lemma {:induction false} CellAfterBound(c0: real, gates: seq<GateInputs>, sigmoid: real -> real, tanh: real -> real)
    requires Squashes(sigmoid, tanh)
    ensures Abs(CellAfter(c0, gates, sigmoid, tanh)) <= Abs(c0) + |gates| as real
    ensures gates != [] ==> Abs(CellAfter(c0, gates, sigmoid, tanh)) < Abs(c0) + |gates| as real
    decreases |gates|
  {
    if gates != [] {
      var prefix := gates[..|gates| - 1];
      CellAfterBound(c0, prefix, sigmoid, tanh);
      CellGrowth(CellAfter(c0, prefix, sigmoid, tanh), gates[|gates| - 1], sigmoid, tanh);
    }
  }

  /** `forward_onestep` on a whole tensor, flattened: `next_h` and `next_c` element by element. */
  function CoreValues(prevCe: seq<real>, gates: seq<GateInputs>, sigmoid: real -> real, tanh: real -> real)
    : (hc: (seq<real>, seq<real>))
    requires |prevCe| == |gates|
    ensures |hc.0| == |hc.1| == |gates|
  {
    var nextC := seq(|gates|, i requires 0 <= i < |gates| => NextCell(prevCe[i], gates[i], sigmoid, tanh));
    (seq(|gates|, i requires 0 <= i < |gates| => NextHidden(nextC[i], gates[i], sigmoid, tanh)), nextC)
  }

  /** Every element of the `next_h` tensor lies strictly between -1 and 1. */
  lemma CoreHiddenBounded(prevCe: seq<real>, gates: seq<GateInputs>, sigmoid: real -> real, tanh: real -> real)
    requires |prevCe| == |gates| && Squashes(sigmoid, tanh)
    ensures forall i :: 0 <= i < |gates| ==> -1.0 < CoreValues(prevCe, gates, sigmoid, tanh).0[i] < 1.0
  {
    forall i | 0 <= i < |gates|
      ensures -1.0 < CoreValues(prevCe, gates, sigmoid, tanh).0[i] < 1.0
    {
      HiddenBounded(prevCe[i], gates[i], sigmoid, tanh);
    }
  }
}
