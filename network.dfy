/**
 * The neural policy of src/network.ts: a layered feed-forward network with a
 * hard-threshold activation, randomly initialised and mutated in place.
 *
 * The first half of the module gives the meaning of a network as values
 * (parameters, forward pass, randomisation and mutation); the classes Level
 * and NNetwork below are the in-place implementation, proved against it.
 */
module Network {
  import opened Utils

  // ---------------------------------------------------------------------------
  // Specification on values
  // ---------------------------------------------------------------------------

  /** The trainable part of one level: weights[i][j] links input i to output j. */
  datatype LevelParams = LevelParams(weights: seq<seq<real>>, biases: seq<real>)
  {
    function InputSize(): nat { |weights| }

    function OutputSize(): nat { |biases| }

    /** The weights form a dense InputSize() × OutputSize() matrix. */
    predicate WellFormed()
    {
      forall i :: 0 <= i < |weights| ==> |weights[i]| == |biases|
    }

    /** How many Math.random draws one pass over every weight and bias consumes. */
    function Count(): nat
    {
      |weights| * |biases| + |biases|
    }
  }

  predicate Shaped(p: LevelParams, inputSize: nat, outputSize: nat)
  {
    p.WellFormed() && p.InputSize() == inputSize && p.OutputSize() == outputSize
  }

  /** The outputs of level k - 1 feed the inputs of level k. */
  predicate Joins(ps: seq<LevelParams>, k: int)
  {
    0 < k < |ps| && ps[k - 1].OutputSize() == ps[k].InputSize()
  }

  /** Consecutive levels fit: the outputs of level k feed the inputs of level k+1. */
  predicate Chained(ps: seq<LevelParams>)
  {
    && (forall k :: 0 <= k < |ps| ==> ps[k].WellFormed())
    && (forall k :: 0 < k < |ps| ==> Joins(ps, k))
  }

  /** Index of the draw for entry (row, col) of a row-major pass of width `width`. */
  function FlatIndex(start: nat, row: nat, width: nat, col: nat): nat
  {
    start + row * width + col
  }

  /** Σ_{j<n} x[j] * w[j][col], accumulated in the order the source's loop does. */
  function WeightedSum(x: seq<real>, w: seq<seq<real>>, col: nat, n: nat): real
    requires n <= |x| && n <= |w|
    requires forall j :: 0 <= j < n ==> col < |w[j]|
  {
    if n == 0 then 0.0 else WeightedSum(x, w, col, n - 1) + x[n - 1] * w[n - 1][col]
  }

  /** With inputs in [0,1] and weights in [-1,1], a sum of n terms lies in [-n, n]. */
  lemma {:induction false} WeightedSumBounded(x: seq<real>, w: seq<seq<real>>, col: nat, n: nat)
    requires n <= |x| && n <= |w|
    requires forall j :: 0 <= j < n ==> col < |w[j]|
    requires forall j :: 0 <= j < n ==> 0.0 <= x[j] <= 1.0 && -1.0 <= w[j][col] <= 1.0
    ensures -(n as real) <= WeightedSum(x, w, col, n) <= n as real
  {
    if n > 0 {
      WeightedSumBounded(x, w, col, n - 1);
      TermInUnitRange(x[n - 1], w[n - 1][col]);
    }
  }

  /** An input in [0,1] times a weight in [-1,1] lies in [-1,1]. */
  lemma TermInUnitRange(a: real, b: real)
    ensures 0.0 <= a <= 1.0 && -1.0 <= b <= 1.0 ==> -1.0 <= a * b <= 1.0
  {
    if 0.0 <= a <= 1.0 && -1.0 <= b <= 1.0 {
      if b >= 0.0 {
        assert a * b <= 1.0 * b;
      } else {
        assert a * b >= 1.0 * b;
      }
    }
  }

  /** The hard threshold: fire exactly when the weighted sum exceeds the bias. */
  function Activation(sum: real, bias: real): (r: real)
    ensures r == 0.0 || r == 1.0
    ensures r == 1.0 <==> sum > bias
  {
    if sum > bias then 1.0 else 0.0
  }

  /** What a forward pass of one level produces from the input vector x. */
  function LevelOutputs(p: LevelParams, x: seq<real>): (out: seq<real>)
    requires p.WellFormed() && |x| >= p.InputSize()
    ensures |out| == p.OutputSize()
    ensures forall i :: 0 <= i < |out| ==> out[i] == 0.0 || out[i] == 1.0
  {
    seq(|p.biases|, i requires 0 <= i < |p.biases| =>
      Activation(WeightedSum(x, p.weights, i, |p.weights|), p.biases[i]))
  }

  /** What a forward pass of the whole network produces: the levels chained in order. */
  function NetOutputs(ps: seq<LevelParams>, x: seq<real>): (out: seq<real>)
    requires |ps| >= 1 && Chained(ps) && |x| >= ps[0].InputSize()
    ensures |out| == ps[|ps| - 1].OutputSize()
    ensures forall i :: 0 <= i < |out| ==> out[i] == 0.0 || out[i] == 1.0
    decreases |ps|
  {
    if |ps| == 1 then LevelOutputs(ps[0], x)
    else
      ChainedPrefix(ps, |ps| - 1);
      assert Joins(ps, |ps| - 1);
      LevelOutputs(ps[|ps| - 1], NetOutputs(ps[..|ps| - 1], x))
  }

  /** The first `i` levels of a chained network are chained. */
  lemma ChainedPrefix(ps: seq<LevelParams>, i: nat)
    requires Chained(ps) && i <= |ps|
    ensures Chained(ps[..i])
  {
    forall k | 0 < k < i
      ensures Joins(ps[..i], k)
    {
      assert Joins(ps, k);
    }
  }

  /** Running one more level on the outputs of a prefix of the levels. */
  lemma {:induction false} NetOutputsStep(ps: seq<LevelParams>, i: nat, x: seq<real>)
    requires 1 <= i < |ps| && Chained(ps) && |x| >= ps[0].InputSize()
    ensures Joins(ps, i) && Chained(ps[..i]) && Chained(ps[..i + 1])
    ensures NetOutputs(ps[..i + 1], x) == LevelOutputs(ps[i], NetOutputs(ps[..i], x))
  {
    ChainedPrefix(ps, i);
    ChainedPrefix(ps, i + 1);
    assert Joins(ps, i);
    var qs := ps[..i + 1];
    assert qs[..i] == ps[..i];
    assert qs[i] == ps[i];
  }

  /**
   * The parameters `randomize` gives an n × m level from the draws starting at
   * `start`: first the weights row by row, then the biases.
   */
  function Randomized(n: nat, m: nat, draw: Draws, start: nat): (p: LevelParams)
    ensures Shaped(p, n, m)
  {
    LevelParams(
      seq(n, i requires 0 <= i < n =>
        seq(m, j requires 0 <= j < m => Fresh(draw(FlatIndex(start, i, m, j))))),
      seq(m, j requires 0 <= j < m => Fresh(draw(FlatIndex(start, n, m, j)))))
  }

  /** Number of levels a network built from `counts` has. */
  function Depth(counts: seq<nat>): nat
  {
    if |counts| == 0 then 0 else |counts| - 1
  }

  /** Draws consumed by building the first k levels of a network from `counts`. */
  function DrawsBeforeLevel(counts: seq<nat>, k: nat): nat
    requires k < |counts|
  {
    if k == 0 then 0
    else DrawsBeforeLevel(counts, k - 1) + counts[k - 1] * counts[k] + counts[k]
  }

  /** The parameters level k of a network built from `counts` gets. */
  function RandomizedLevel(counts: seq<nat>, draw: Draws, start: nat, k: nat): (p: LevelParams)
    requires k < Depth(counts)
    ensures Shaped(p, counts[k], counts[k + 1])
  {
    Randomized(counts[k], counts[k + 1], draw, start + DrawsBeforeLevel(counts, k))
  }

  /** The parameters of a network freshly built from `counts`. */
  function RandomizedNet(counts: seq<nat>, draw: Draws, start: nat): (ps: seq<LevelParams>)
    ensures |ps| == Depth(counts) && Chained(ps)
    ensures forall k {:trigger ps[k]} :: 0 <= k < |ps| ==> Shaped(ps[k], counts[k], counts[k + 1])
  {
    var ps := seq(Depth(counts), k requires 0 <= k < Depth(counts) => RandomizedLevel(counts, draw, start, k));
    assert forall k {:trigger ps[k]} :: 0 <= k < |ps| ==> Shaped(ps[k], counts[k], counts[k + 1]);
    ps
  }

  /**
   * The parameters `mutate` leaves in one level: each bias, then each weight
   * row by row, blended towards a fresh draw by `amount`.
   */
  function Mutated(p: LevelParams, amount: real, draw: Draws, start: nat): (q: LevelParams)
    requires p.WellFormed()
    ensures Shaped(q, p.InputSize(), p.OutputSize())
  {
    var m := |p.biases|;
    LevelParams(
      seq(|p.weights|, i requires 0 <= i < |p.weights| =>
        seq(m, j requires 0 <= j < m =>
          Lerp(p.weights[i][j], Fresh(draw(FlatIndex(start + m, i, m, j))), amount))),
      seq(m, j requires 0 <= j < m => Lerp(p.biases[j], Fresh(draw(start + j)), amount)))
  }

  /** The parameters after the first k levels of `ps` have been mutated. */
  function PartlyMutated(ps: seq<LevelParams>, amount: real, draw: Draws, start: nat, k: nat): (qs: seq<LevelParams>)
    requires forall i :: 0 <= i < |ps| ==> ps[i].WellFormed()
    ensures |qs| == |ps|
  {
    seq(|ps|, i requires 0 <= i < |ps| => if i < k then MutatedLevel(ps, amount, draw, start, i) else ps[i])
  }

  lemma PartlyMutatedStep(ps: seq<LevelParams>, amount: real, draw: Draws, start: nat, k: nat,
                           cur: seq<LevelParams>, before: nat)
    requires forall i :: 0 <= i < |ps| ==> ps[i].WellFormed()
    requires k < |ps| && cur == PartlyMutated(ps, amount, draw, start, k)
    requires before == start + DrawsBefore(ps, k)
    ensures before + ps[k].Count() == start + DrawsBefore(ps, k + 1)
    ensures cur[k := Mutated(cur[k], amount, draw, before)] == PartlyMutated(ps, amount, draw, start, k + 1)
  {
    assert cur[k] == ps[k];
  }

  lemma PartlyMutatedAll(ps: seq<LevelParams>, amount: real, draw: Draws, start: nat)
    requires forall i :: 0 <= i < |ps| ==> ps[i].WellFormed()
    ensures PartlyMutated(ps, amount, draw, start, |ps|) == MutatedNet(ps, amount, draw, start)
  {
  }

  /** Draws consumed by mutating the first k levels. */
  function DrawsBefore(ps: seq<LevelParams>, k: nat): nat
    requires k <= |ps|
  {
    if k == 0 then 0 else DrawsBefore(ps, k - 1) + ps[k - 1].Count()
  }

  /** The parameters `mutate` leaves in a whole network. */
  function MutatedNet(ps: seq<LevelParams>, amount: real, draw: Draws, start: nat): (qs: seq<LevelParams>)
    requires forall k :: 0 <= k < |ps| ==> ps[k].WellFormed()
    ensures |qs| == |ps|
    ensures forall k :: 0 <= k < |ps| ==> Shaped(qs[k], ps[k].InputSize(), ps[k].OutputSize())
  {
    seq(|ps|, k requires 0 <= k < |ps| => MutatedLevel(ps, amount, draw, start, k))
  }

  /** The parameters `mutate` leaves in level k. */
  function MutatedLevel(ps: seq<LevelParams>, amount: real, draw: Draws, start: nat, k: nat): (q: LevelParams)
    requires k < |ps| && ps[k].WellFormed()
    ensures Shaped(q, ps[k].InputSize(), ps[k].OutputSize())
  {
    Mutated(ps[k], amount, draw, start + DrawsBefore(ps, k))
  }

  // ---------------------------------------------------------------------------
  // The in-place implementation
  // ---------------------------------------------------------------------------

  // ---------------------------------------------------------------------
  // Properties of the forward pass

  /** The weighted sum reads only the first n inputs. */
  lemma {:induction false} WeightedSumPrefix(x: seq<real>, y: seq<real>, w: seq<seq<real>>, col: nat, n: nat)
    requires n <= |x| && n <= |y| && n <= |w|
    requires forall j :: 0 <= j < n ==> col < |w[j]|
    requires x[..n] == y[..n]
    ensures WeightedSum(x, w, col, n) == WeightedSum(y, w, col, n)
  {
    if n > 0 {
      assert x[..n - 1] == x[..n][..n - 1] && y[..n - 1] == y[..n][..n - 1];
      assert x[n - 1] == x[..n][n - 1] && y[n - 1] == y[..n][n - 1];
      WeightedSumPrefix(x, y, w, col, n - 1);
    }
  }

  /** With every input zero the weighted sum is zero, whatever the weights. */
  lemma {:induction false} WeightedSumOfZeros(x: seq<real>, w: seq<seq<real>>, col: nat, n: nat)
    requires n <= |x| && n <= |w|
    requires forall j :: 0 <= j < n ==> col < |w[j]|
    requires forall j :: 0 <= j < n ==> x[j] == 0.0
    ensures WeightedSum(x, w, col, n) == 0.0
  {
    if n > 0 {
      WeightedSumOfZeros(x, w, col, n - 1);
    }
  }

  /** Output i of a level fires exactly when its weighted sum is strictly above its bias. */
  lemma LevelOutputFires(p: LevelParams, x: seq<real>, i: nat)
    requires p.WellFormed() && |x| >= p.InputSize() && i < p.OutputSize()
    ensures LevelOutputs(p, x)[i] == 1.0 <==> WeightedSum(x, p.weights, i, p.InputSize()) > p.biases[i]
    ensures LevelOutputs(p, x)[i] == 0.0 <==> WeightedSum(x, p.weights, i, p.InputSize()) <= p.biases[i]
  {
  }

  /** Inputs beyond the level's input size are ignored. */
  lemma LevelOutputsIgnoreExtraInputs(p: LevelParams, x: seq<real>)
    requires p.WellFormed() && |x| >= p.InputSize()
    ensures LevelOutputs(p, x) == LevelOutputs(p, x[..p.InputSize()])
  {
    var n := p.InputSize();
    assert x[..n][..n] == x[..n];
    forall i | 0 <= i < p.OutputSize()
      ensures LevelOutputs(p, x)[i] == LevelOutputs(p, x[..n])[i]
    {
      WeightedSumPrefix(x, x[..n], p.weights, i, n);
    }
  }

  /** On an all-zero input, output i fires exactly when its bias is negative. */
  lemma ZeroInputFiresOnNegativeBias(p: LevelParams, x: seq<real>, i: nat)
    requires p.WellFormed() && |x| >= p.InputSize() && i < p.OutputSize()
    requires forall j :: 0 <= j < |x| ==> x[j] == 0.0
    ensures LevelOutputs(p, x)[i] == 1.0 <==> p.biases[i] < 0.0
  {
    WeightedSumOfZeros(x, p.weights, i, p.InputSize());
  }

  // ---------------------------------------------------------------------
  // Properties of randomisation

  /** Every weight and bias lies in [-1, 1]. */
  predicate InUnitRange(p: LevelParams)
  {
    && (forall i, j :: 0 <= i < |p.weights| && 0 <= j < |p.weights[i]| ==> -1.0 <= p.weights[i][j] <= 1.0)
    && (forall j :: 0 <= j < |p.biases| ==> -1.0 <= p.biases[j] <= 1.0)
  }

  /** Row i of a row-major pass over n rows of width m starts before the biases' block. */
  lemma RowFits(i: nat, n: nat, m: nat)
    requires i < n
    ensures i * m + m <= n * m
  {
    var d := n - i - 1;
    assert n * m == i * m + m + d * m;
    assert d * m >= 0;
  }

  /**
   * Entry (i, j) of the weights is drawn at an index inside the level's block
   * of n·m + m draws, after the rows before it.
   */
  lemma FlatIndexInBlock(start: nat, n: nat, m: nat, i: nat, j: nat)
    requires i < n && j < m
    ensures start <= FlatIndex(start, i, m, j) < start + n * m
  {
    RowFits(i, n, m);
  }

  /** No two entries of the weights share a draw. */
  lemma FlatIndexInjective(start: nat, m: nat, i: nat, j: nat, i': nat, j': nat)
    requires j < m && j' < m
    requires FlatIndex(start, i, m, j) == FlatIndex(start, i', m, j')
    ensures i == i' && j == j'
  {
    if i < i' {
      RowFits(i, i', m);
      assert false;
    } else if i' < i {
      RowFits(i', i, m);
      assert false;
    }
  }

  /**
   * Given unit draws, `randomize` leaves every weight and bias in [-1, 1), so
   * in particular within the closed unit range mutation keeps.
   */
  lemma RandomizedInUnitRange(n: nat, m: nat, draw: Draws, start: nat)
    requires UnitDraws(draw, start, n * m + m)
    ensures var p := Randomized(n, m, draw, start);
      && (forall i, j :: 0 <= i < n && 0 <= j < m ==> -1.0 <= p.weights[i][j] < 1.0)
      && (forall j :: 0 <= j < m ==> -1.0 <= p.biases[j] < 1.0)
    ensures InUnitRange(Randomized(n, m, draw, start))
  {
    var p := Randomized(n, m, draw, start);
    forall i, j | 0 <= i < n && 0 <= j < m
      ensures -1.0 <= p.weights[i][j] < 1.0
    {
      FlatIndexInBlock(start, n, m, i, j);
      FreshInRange(draw(FlatIndex(start, i, m, j)));
    }
    forall j | 0 <= j < m
      ensures -1.0 <= p.biases[j] < 1.0
    {
      FreshInRange(draw(FlatIndex(start, n, m, j)));
    }
  }

  // ---------------------------------------------------------------------
  // Properties of mutation

  /** Mutating by 0 changes nothing. */
  lemma MutatedByZero(p: LevelParams, draw: Draws, start: nat)
    requires p.WellFormed()
    ensures Mutated(p, 0.0, draw, start) == p
  {
    var q := Mutated(p, 0.0, draw, start);
    forall i | 0 <= i < |p.weights|
      ensures q.weights[i] == p.weights[i]
    {
    }
  }

  /** Mutating by 1 forgets the old values: every entry is the fresh draw alone. */
  lemma MutatedByOne(p: LevelParams, draw: Draws, start: nat)
    requires p.WellFormed()
    ensures var q := Mutated(p, 1.0, draw, start);
      && (forall j :: 0 <= j < |q.biases| ==> q.biases[j] == Fresh(draw(start + j)))
      && (forall i, j :: 0 <= i < |q.weights| && 0 <= j < |q.biases| ==>
            q.weights[i][j] == Fresh(draw(FlatIndex(start + |q.biases|, i, |q.biases|, j))))
  {
  }

  /**
   * With an amount in [0, 1] and unit draws, mutation keeps every parameter
   * in [-1, 1].
   */
  lemma MutatedInUnitRange(p: LevelParams, amount: real, draw: Draws, start: nat)
    requires p.WellFormed() && InUnitRange(p)
    requires 0.0 <= amount <= 1.0
    requires UnitDraws(draw, start, p.Count())
    ensures InUnitRange(Mutated(p, amount, draw, start))
  {
    var n, m := p.InputSize(), p.OutputSize();
    var q := Mutated(p, amount, draw, start);
    forall j | 0 <= j < m
      ensures -1.0 <= q.biases[j] <= 1.0
    {
      FreshInRange(draw(start + j));
      LerpBetween(p.biases[j], Fresh(draw(start + j)), amount, -1.0, 1.0);
    }
    forall i, j | 0 <= i < n && 0 <= j < m
      ensures -1.0 <= q.weights[i][j] <= 1.0
    {
      FlatIndexInBlock(start + m, n, m, i, j);
      var r := draw(FlatIndex(start + m, i, m, j));
      FreshInRange(r);
      LerpBetween(p.weights[i][j], Fresh(r), amount, -1.0, 1.0);
    }
  }

  /** Mutation keeps a network's levels chained, so it can still be run. */
  lemma MutatedNetChained(ps: seq<LevelParams>, amount: real, draw: Draws, start: nat)
    requires Chained(ps)
    ensures Chained(MutatedNet(ps, amount, draw, start))
  {
    var qs := MutatedNet(ps, amount, draw, start);
    forall k | 0 < k < |qs|
      ensures Joins(qs, k)
    {
      assert Joins(ps, k);
    }
  }

  /** Level k of a mutated network is level k mutated from where the earlier levels' draws stop. */
  lemma MutatedNetAt(ps: seq<LevelParams>, amount: real, draw: Draws, start: nat, k: nat)
    requires forall i :: 0 <= i < |ps| ==> ps[i].WellFormed()
    requires k < |ps|
    ensures MutatedNet(ps, amount, draw, start)[k] == Mutated(ps[k], amount, draw, start + DrawsBefore(ps, k))
  {
    assert MutatedNet(ps, amount, draw, start)[k] == MutatedLevel(ps, amount, draw, start, k);
    MutatedLevelIs(ps, amount, draw, start, k);
  }

  /** MutatedLevel unfolded, stated on its own so the solver sees nothing else. */
  lemma MutatedLevelIs(ps: seq<LevelParams>, amount: real, draw: Draws, start: nat, k: nat)
    requires k < |ps| && ps[k].WellFormed()
    ensures MutatedLevel(ps, amount, draw, start, k) == Mutated(ps[k], amount, draw, start + DrawsBefore(ps, k))
  {
  }

  /** Mutating a whole network by 0 changes nothing. */
  lemma MutatedNetByZero(ps: seq<LevelParams>, draw: Draws, start: nat)
    requires forall k :: 0 <= k < |ps| ==> ps[k].WellFormed()
    ensures MutatedNet(ps, 0.0, draw, start) == ps
  {
    forall k | 0 <= k < |ps|
      ensures MutatedNet(ps, 0.0, draw, start)[k] == ps[k]
    {
      MutatedByZero(ps[k], draw, start + DrawsBefore(ps, k));
    }
  }

  /** The levels' draw blocks follow one another: level k starts where level k-1 stopped. */
  lemma {:induction false} DrawsBeforeMonotone(ps: seq<LevelParams>, k: nat, k': nat)
    requires k < k' <= |ps|
    ensures DrawsBefore(ps, k) + ps[k].Count() <= DrawsBefore(ps, k')
    decreases k' - k
  {
    if k + 1 < k' {
      DrawsBeforeMonotone(ps, k + 1, k');
    }
  }

  /**
   * Mutating a whole network with unit draws and an amount in [0, 1] keeps
   * every parameter of every level in [-1, 1].
   */
  lemma MutatedNetInUnitRange(ps: seq<LevelParams>, amount: real, draw: Draws, start: nat)
    requires forall k :: 0 <= k < |ps| ==> ps[k].WellFormed() && InUnitRange(ps[k])
    requires 0.0 <= amount <= 1.0
    requires UnitDraws(draw, start, DrawsBefore(ps, |ps|))
    ensures forall k :: 0 <= k < |ps| ==> InUnitRange(MutatedNet(ps, amount, draw, start)[k])
  {
    forall k | 0 <= k < |ps|
      ensures InUnitRange(MutatedNet(ps, amount, draw, start)[k])
    {
      DrawsBeforeMonotone(ps, k, |ps|);
      UnitDrawsWithin(draw, start, DrawsBefore(ps, |ps|), start + DrawsBefore(ps, k), ps[k].Count());
      MutatedLevelInUnitRange(ps, amount, draw, start, k);
    }
  }

  lemma MutatedLevelInUnitRange(ps: seq<LevelParams>, amount: real, draw: Draws, start: nat, k: nat)
    requires forall i :: 0 <= i < |ps| ==> ps[i].WellFormed()
    requires k < |ps| && InUnitRange(ps[k])
    requires 0.0 <= amount <= 1.0
    requires UnitDraws(draw, start + DrawsBefore(ps, k), ps[k].Count())
    ensures InUnitRange(MutatedNet(ps, amount, draw, start)[k])
  {
    MutatedInUnitRange(ps[k], amount, draw, start + DrawsBefore(ps, k));
    MutatedNetAt(ps, amount, draw, start, k);
  }

  /**
   * One layer. Its four arrays are allocated once by the constructor and never
   * replaced; randomize and mutate overwrite the weights and biases, a forward
   * pass overwrites the inputs and outputs.
   */
  class Level {
    const inputs: array<real>
    const outputs: array<real>
    const biases: array<real>
    const weights: seq<array<real>>
    /** The arrays randomize and mutate write: the biases and the weight rows. */
    ghost const ParamArrays: set<array<real>>

    /**
     * Shape invariant: weights is inputs.Length rows of outputs.Length entries,
     * biases has outputs.Length entries, and no two of these arrays are shared.
     */
    ghost predicate Valid()
    {
      && |weights| == inputs.Length
      && biases.Length == outputs.Length
      && (forall i :: 0 <= i < |weights| ==> weights[i].Length == outputs.Length)
      && (forall i, j :: 0 <= i < j < |weights| ==> weights[i] != weights[j])
      && biases in ParamArrays
      && (forall i :: 0 <= i < |weights| ==> weights[i] in ParamArrays && weights[i] != biases)
      && inputs != outputs && inputs !in ParamArrays && outputs !in ParamArrays
    }

    ghost function Params(): (p: LevelParams)
      requires Valid()
      reads ParamArrays
      ensures Shaped(p, inputs.Length, outputs.Length)
    {
      LevelParams(
        seq(|weights|, i requires 0 <= i < |weights| reads weights => weights[i][..]),
        biases[..])
    }

    /** `new Level(inputSize, outputSize)`: allocate the arrays, then randomize. */
    constructor (inputSize: nat, outputSize: nat, draw: Draws, start: nat)
      ensures Valid() && fresh(inputs) && fresh(outputs) && fresh(ParamArrays)
      ensures inputs.Length == inputSize && outputs.Length == outputSize
      ensures Params() == Randomized(inputSize, outputSize, draw, start)
    {
      var ins := new real[inputSize];
      var outs := new real[outputSize];
      var bs := new real[outputSize];
      var rows: seq<array<real>> := [];
      ghost var rowSet: set<array<real>> := {};
      for i := 0 to inputSize
        invariant |rows| == i
        invariant forall a :: 0 <= a < i ==> rows[a].Length == outputSize && rows[a] in rowSet
        invariant forall a, b :: 0 <= a < b < i ==> rows[a] != rows[b]
        invariant fresh(rowSet) && ins !in rowSet && outs !in rowSet && bs !in rowSet
      {
        var row := new real[outputSize];
        rows := rows + [row];
        rowSet := rowSet + {row};
      }
      inputs, outputs, biases, weights := ins, outs, bs, rows;
      ParamArrays := {bs} + rowSet;
      new;
      Randomize(draw, start);
    }

    /** A structural copy of `src` (what a JSON round trip of a level yields). */
    constructor Copy(src: Level)
      requires src.Valid()
      ensures Valid() && fresh(inputs) && fresh(outputs) && fresh(ParamArrays)
      ensures inputs[..] == src.inputs[..] && outputs[..] == src.outputs[..]
      ensures Params() == old(src.Params())
    {
      var rows: seq<array<real>> := [];
      ghost var rowSet: set<array<real>> := {};
      for i := 0 to |src.weights|
        invariant |rows| == i
        invariant forall a :: 0 <= a < i ==> rows[a][..] == src.weights[a][..] && rows[a] in rowSet
        invariant forall a, b :: 0 <= a < b < i ==> rows[a] != rows[b]
        invariant fresh(rowSet)
      {
        var w := src.weights[i][..];
        var row := new real[|w|](j requires 0 <= j < |w| => w[j]);
        assert row[..] == w;
        rows := rows + [row];
        rowSet := rowSet + {row};
      }
      var xs, ys, bs := src.inputs[..], src.outputs[..], src.biases[..];
      var ins := new real[|xs|](i requires 0 <= i < |xs| => xs[i]);
      var outs := new real[|ys|](i requires 0 <= i < |ys| => ys[i]);
      var bias := new real[|bs|](i requires 0 <= i < |bs| => bs[i]);
      inputs, outputs, biases, weights := ins, outs, bias, rows;
      ParamArrays := {bias} + rowSet;
      new;
      assert inputs[..] == xs && outputs[..] == ys && biases[..] == bs;
      assert forall a :: 0 <= a < |weights| ==> Params().weights[a] == src.Params().weights[a];
    }

    /** `Level.randomize`: every weight, then every bias, becomes `Math.random() * 2 - 1`. */
    method Randomize(draw: Draws, start: nat)
      requires Valid()
      modifies ParamArrays
      ensures Params() == Randomized(inputs.Length, outputs.Length, draw, start)
    {
      var n, m := inputs.Length, outputs.Length;
      for i := 0 to n
        invariant forall a, b :: 0 <= a < i && 0 <= b < m ==>
          weights[a][b] == Fresh(draw(FlatIndex(start, a, m, b)))
      {
        for j := 0 to m
          invariant forall a, b :: 0 <= a < i && 0 <= b < m ==>
            weights[a][b] == Fresh(draw(FlatIndex(start, a, m, b)))
          invariant forall b :: 0 <= b < j ==> weights[i][b] == Fresh(draw(FlatIndex(start, i, m, b)))
        {
          weights[i][j] := Fresh(draw(FlatIndex(start, i, m, j)));
        }
      }
      for i := 0 to m
        invariant forall a, b :: 0 <= a < n && 0 <= b < m ==>
          weights[a][b] == Fresh(draw(FlatIndex(start, a, m, b)))
        invariant forall b :: 0 <= b < i ==> biases[b] == Fresh(draw(FlatIndex(start, n, m, b)))
      {
        biases[i] := Fresh(draw(FlatIndex(start, n, m, i)));
      }
      ghost var r := Randomized(n, m, draw, start);
      assert forall a :: 0 <= a < n ==> Params().weights[a] == r.weights[a];
    }

    /** `Level.feedForward`: copy the inputs in, then threshold each output's weighted sum. */
    method FeedForward(x: seq<real>) returns (out: array<real>)
      requires Valid() && |x| >= inputs.Length
      modifies inputs, outputs
      ensures out == outputs
      ensures inputs[..] == x[..inputs.Length]
      ensures outputs[..] == LevelOutputs(Params(), x)
      ensures Params() == old(Params())
    {
      var n, m := inputs.Length, outputs.Length;
      for i := 0 to n
        invariant inputs[..i] == x[..i]
      {
        inputs[i] := x[i];
      }
      ghost var p := Params();
      for i := 0 to m
        invariant inputs[..] == x[..n]
        invariant forall k :: 0 <= k < i ==>
          outputs[k] == Activation(WeightedSum(x, p.weights, k, n), p.biases[k])
      {
        var sum := 0.0;
        for j := 0 to n
          invariant sum == WeightedSum(x, p.weights, i, j)
        {
          sum := sum + inputs[j] * weights[j][i];
        }
        if sum > biases[i] {
          outputs[i] := 1.0;
        } else {
          outputs[i] := 0.0;
        }
      }
      assert Params() == p;
      assert outputs[..] == LevelOutputs(p, x);
      out := outputs;
    }

    /** The body of `NNetwork.mutate` for one level: biases first, then weights row by row. */
    method Mutate(amount: real, draw: Draws, start: nat) returns (next: nat)
      requires Valid()
      modifies ParamArrays
      ensures Params() == Mutated(old(Params()), amount, draw, start)
      ensures next == start + old(Params()).Count()
    {
      ghost var p := Params();
      MutateBiases(amount, draw, start);
      MutateWeights(amount, draw, start + outputs.Length);
      next := start + inputs.Length * outputs.Length + outputs.Length;
      ghost var q := Mutated(p, amount, draw, start);
      assert Params().biases == q.biases;
      assert forall a :: 0 <= a < inputs.Length ==> Params().weights[a] == q.weights[a];
    }

    /** First half of one level's mutation: each bias, in order. */
    method MutateBiases(amount: real, draw: Draws, start: nat)
      requires Valid()
      modifies biases
      ensures forall b :: 0 <= b < biases.Length ==>
        biases[b] == Lerp(old(biases[b]), Fresh(draw(start + b)), amount)
    {
      for i := 0 to biases.Length
        invariant forall b :: 0 <= b < i ==> biases[b] == Lerp(old(biases[b]), Fresh(draw(start + b)), amount)
        invariant forall b :: i <= b < biases.Length ==> biases[b] == old(biases[b])
      {
        biases[i] := Lerp(biases[i], Fresh(draw(start + i)), amount);
      }
    }

    /** Second half of one level's mutation: each weight, row by row. */
    method MutateWeights(amount: real, draw: Draws, start: nat)
      requires Valid()
      modifies ParamArrays - {biases}
      ensures forall a, b :: 0 <= a < |weights| && 0 <= b < outputs.Length ==>
        weights[a][b] == Lerp(old(weights[a][b]), Fresh(draw(FlatIndex(start, a, outputs.Length, b))), amount)
    {
      var n, m := inputs.Length, outputs.Length;
      for i := 0 to n
        invariant forall a, b :: 0 <= a < i && 0 <= b < m ==>
          weights[a][b] == Lerp(old(weights[a][b]), Fresh(draw(FlatIndex(start, a, m, b))), amount)
        invariant forall a, b :: i <= a < n && 0 <= b < m ==> weights[a][b] == old(weights[a][b])
      {
        for j := 0 to m
          modifies weights[i]
          invariant forall b :: 0 <= b < j ==>
            weights[i][b] == Lerp(old(weights[i][b]), Fresh(draw(FlatIndex(start, i, m, b))), amount)
          invariant forall b :: j <= b < m ==> weights[i][b] == old(weights[i][b])
        {
          weights[i][j] := Lerp(weights[i][j], Fresh(draw(FlatIndex(start, i, m, j))), amount);
        }
      }
    }
  }

  /** A network: its list of levels is built once by the constructor and never resized. */
  class NNetwork {
    const levels: seq<Level>
    /** The arrays a forward pass writes: every level's inputs and outputs. */
    ghost const Signals: set<array<real>>
    /** The arrays mutation writes: every level's weights and biases. */
    ghost const ParamArrays: set<array<real>>

    /** Every level is well shaped, no two levels share an array, and the sizes chain. */
    ghost predicate Valid()
    {
      && Owned(levels, Signals, ParamArrays)
      && (forall j, k :: 0 <= j < k < |levels| && k == j + 1 ==> levels[j].outputs.Length == levels[k].inputs.Length)
    }

    ghost function Params(): (ps: seq<LevelParams>)
      requires Valid()
      reads ParamArrays
      ensures |ps| == |levels| && Chained(ps)
      ensures forall k :: 0 <= k < |levels| ==> ps[k] == levels[k].Params()
    {
      seq(|levels|, k requires 0 <= k < |levels| reads ParamArrays => levels[k].Params())
    }

    /** `new NNetwork(neuronCounts)`: one randomised level per consecutive pair of counts. */
    constructor (neuronCounts: seq<nat>, draw: Draws, start: nat)
      ensures Valid() && fresh(Signals) && fresh(ParamArrays)
      ensures |levels| == Depth(neuronCounts)
      ensures forall k {:trigger levels[k]} :: 0 <= k < |levels| ==>
        levels[k].inputs.Length == neuronCounts[k] && levels[k].outputs.Length == neuronCounts[k + 1]
      ensures Params() == RandomizedNet(neuronCounts, draw, start)
    {
      var ls: seq<Level> := [];
      ghost var sig: set<array<real>> := {};
      ghost var pa: set<array<real>> := {};
      for i := 0 to Depth(neuronCounts)
        invariant |ls| == i && Built(ls, sig, pa, neuronCounts, draw, start)
        invariant fresh(sig) && fresh(pa)
      {
        var level := new Level(neuronCounts[i], neuronCounts[i + 1], draw, start + DrawsBeforeLevel(neuronCounts, i));
        BuiltExtend(ls, sig, pa, neuronCounts, draw, start, level);
        ls := ls + [level];
        sig := sig + {level.inputs, level.outputs};
        pa := pa + level.ParamArrays;
      }
      levels := ls;
      Signals, ParamArrays := sig, pa;
      new;
      assert forall k :: 0 <= k < |levels| ==> Params()[k] == RandomizedNet(neuronCounts, draw, start)[k];
    }

    /** `ls` are the first |ls| levels of a network freshly built from `neuronCounts`. */
    static ghost predicate Built(ls: seq<Level>, sig: set<array<real>>, pa: set<array<real>>,
                                 neuronCounts: seq<nat>, draw: Draws, start: nat)
      reads pa
    {
      && Owned(ls, sig, pa)
      && Sized(ls, neuronCounts)
      && (forall k :: 0 <= k < |ls| ==> ls[k].Params() == RandomizedLevel(neuronCounts, draw, start, k))
    }

    /**
     * The levels `ls` are well shaped and share no array; `sig` holds their
     * signal arrays and `pa` their parameter arrays.
     */
    static ghost predicate Owned(ls: seq<Level>, sig: set<array<real>>, pa: set<array<real>>)
    {
      && sig !! pa
      && (forall k :: 0 <= k < |ls| ==>
            && ls[k].Valid()
            && ls[k].inputs in sig && ls[k].outputs in sig && ls[k].ParamArrays <= pa)
      && (forall k, k' :: 0 <= k < k' < |ls| ==> ls[k].ParamArrays !! ls[k'].ParamArrays)
    }

    /** Appending the next randomised level, whose arrays are new, keeps Built. */
    static lemma BuiltExtend(ls: seq<Level>, sig: set<array<real>>, pa: set<array<real>>,
                             neuronCounts: seq<nat>, draw: Draws, start: nat, level: Level)
      requires |ls| < Depth(neuronCounts) && Built(ls, sig, pa, neuronCounts, draw, start)
      requires level.Valid()
      requires level.inputs.Length == neuronCounts[|ls|] && level.outputs.Length == neuronCounts[|ls| + 1]
      requires level.Params() == Randomized(neuronCounts[|ls|], neuronCounts[|ls| + 1], draw,
                                            start + DrawsBeforeLevel(neuronCounts, |ls|))
      requires level.inputs !in pa && level.outputs !in pa && level.ParamArrays !! sig + pa
      ensures Built(ls + [level], sig + {level.inputs, level.outputs}, pa + level.ParamArrays, neuronCounts, draw, start)
    {
      OwnedExtend(ls, sig, pa, level);
      var ls' := ls + [level];
      forall k | 0 <= k < |ls'|
        ensures ls'[k].Params() == RandomizedLevel(neuronCounts, draw, start, k)
      {
        if k < |ls| { assert ls'[k] == ls[k]; }
      }
    }

    /** Level k of `ls` has neuronCounts[k] inputs and neuronCounts[k + 1] outputs. */
    static ghost predicate Sized(ls: seq<Level>, neuronCounts: seq<nat>)
    {
      && |ls| <= Depth(neuronCounts)
      && forall k {:trigger ls[k]} :: 0 <= k < |ls| ==>
           ls[k].inputs.Length == neuronCounts[k] && ls[k].outputs.Length == neuronCounts[k + 1]
    }

    /** Appending a level whose arrays are new keeps Owned. */
    static lemma OwnedExtend(ls: seq<Level>, sig: set<array<real>>, pa: set<array<real>>, level: Level)
      requires Owned(ls, sig, pa) && level.Valid()
      requires level.inputs !in pa && level.outputs !in pa && level.ParamArrays !! sig + pa
      ensures Owned(ls + [level], sig + {level.inputs, level.outputs}, pa + level.ParamArrays)
    {
      var ls' := ls + [level];
      forall k, k' | 0 <= k < k' < |ls'|
        ensures ls'[k].ParamArrays !! ls'[k'].ParamArrays
      {
        if k' == |ls| {
          assert ls'[k].ParamArrays <= pa;
        }
      }
    }

    /** The deep copy `JSON.parse(JSON.stringify(src))`: equal contents, no shared arrays. */
    constructor Copy(src: NNetwork)
      requires src.Valid()
      ensures Valid() && fresh(Signals) && fresh(ParamArrays)
      ensures |levels| == |src.levels|
      ensures forall k :: 0 <= k < |levels| ==>
        levels[k].inputs[..] == src.levels[k].inputs[..] && levels[k].outputs[..] == src.levels[k].outputs[..]
      ensures Params() == old(src.Params())
    {
      var ls: seq<Level> := [];
      ghost var sig: set<array<real>> := {};
      ghost var pa: set<array<real>> := {};
      for i := 0 to |src.levels|
        invariant |ls| == i && Owned(ls, sig, pa)
        invariant forall k :: 0 <= k < i ==>
          && ls[k].inputs[..] == src.levels[k].inputs[..] && ls[k].outputs[..] == src.levels[k].outputs[..]
          && ls[k].Params() == src.levels[k].Params()
        invariant fresh(sig) && fresh(pa)
      {
        label top:
        var level := new Level.Copy(src.levels[i]);
        assert forall k :: 0 <= k < i ==> ls[k].Params() == old@top(ls[k].Params());
        OwnedExtend(ls, sig, pa, level);
        var ls' := ls + [level];
        forall k | 0 <= k < |ls'|
          ensures ls'[k].inputs[..] == src.levels[k].inputs[..] && ls'[k].outputs[..] == src.levels[k].outputs[..]
          ensures ls'[k].Params() == src.levels[k].Params()
        {
          if k < i { assert ls'[k] == ls[k]; }
        }
        ls := ls';
        sig := sig + {level.inputs, level.outputs};
        pa := pa + level.ParamArrays;
      }
      levels := ls;
      Signals, ParamArrays := sig, pa;
      new;
      assert Params() == src.Params();
    }

    /**
     * `NNetwork.feedForward`: run level 0 on the inputs, then each further level
     * on the previous level's outputs; the result is the last level's own
     * outputs array.
     */
    method FeedForward(inputs: seq<real>) returns (out: array<real>)
      requires Valid() && |levels| >= 1 && |inputs| >= levels[0].inputs.Length
      modifies Signals
      ensures out == levels[|levels| - 1].outputs
      ensures out[..] == NetOutputs(Params(), inputs)
      ensures Params() == old(Params())
    {
      ghost var ps := Params();
      out := FeedLevel(0, inputs);
      assert ps[..1] == [ps[0]];
      for i := 1 to |levels|
        invariant out == levels[i - 1].outputs
        invariant Params() == ps
        invariant out[..] == NetOutputs(ps[..i], inputs)
      {
        NetOutputsStep(ps, i, inputs);
        out := FeedLevel(i, out[..]);
      }
      assert ps[..|levels|] == ps;
    }

    /** Level i's forward pass, seen from the network: no level's parameters change. */
    method FeedLevel(i: nat, x: seq<real>) returns (out: array<real>)
      requires Valid() && i < |levels| && |x| >= levels[i].inputs.Length
      modifies levels[i].inputs, levels[i].outputs
      ensures out == levels[i].outputs
      ensures out[..] == LevelOutputs(old(Params())[i], x)
      ensures Params() == old(Params())
    {
      ghost var ps := Params();
      out := levels[i].FeedForward(x);
      assert forall k :: 0 <= k < |levels| ==> levels[k].Params() == ps[k];
    }

    /**
     * `NNetwork.mutate`: every bias and weight v of every level becomes
     * `lerp(v, Math.random() * 2 - 1, amount)`; nothing else changes.
     */
    method Mutate(amount: real, draw: Draws, start: nat) returns (next: nat)
      requires Valid()
      modifies ParamArrays
      ensures Params() == MutatedNet(old(Params()), amount, draw, start)
      ensures next == start + DrawsBefore(old(Params()), |levels|)
      ensures forall k :: 0 <= k < |levels| ==>
        levels[k].inputs[..] == old(levels[k].inputs[..]) && levels[k].outputs[..] == old(levels[k].outputs[..])
    {
      ghost var ps := Params();
      next := start;
      assert ps == PartlyMutated(ps, amount, draw, start, 0);
      for k := 0 to |levels|
        invariant next == start + DrawsBefore(ps, k)
        invariant Params() == PartlyMutated(ps, amount, draw, start, k)
        invariant forall i :: 0 <= i < |levels| ==>
          levels[i].inputs[..] == old(levels[i].inputs[..]) && levels[i].outputs[..] == old(levels[i].outputs[..])
      {
        ghost var cur, before := Params(), next;
        next := MutateLevel(k, amount, draw, next);
        PartlyMutatedStep(ps, amount, draw, start, k, cur, before);
      }
      PartlyMutatedAll(ps, amount, draw, start);
    }

    /** Mutation of level k alone: the other levels and all signals keep their contents. */
    method MutateLevel(k: nat, amount: real, draw: Draws, start: nat) returns (next: nat)
      requires Valid() && k < |levels|
      modifies levels[k].ParamArrays
      ensures Params() == old(Params())[k := Mutated(old(Params())[k], amount, draw, start)]
      ensures next == start + old(Params())[k].Count()
      ensures forall i :: 0 <= i < |levels| ==>
        levels[i].inputs[..] == old(levels[i].inputs[..]) && levels[i].outputs[..] == old(levels[i].outputs[..])
    {
      ghost var ps := Params();
      next := levels[k].Mutate(amount, draw, start);
      forall i | 0 <= i < |levels| && i != k
        ensures levels[i].Params() == ps[i]
      {
        assert levels[i].ParamArrays !! levels[k].ParamArrays by {
          if i < k {
            assert levels[i].ParamArrays !! levels[k].ParamArrays;
          } else {
            assert levels[k].ParamArrays !! levels[i].ParamArrays;
          }
        }
      }
      assert Params() == ps[k := Mutated(ps[k], amount, draw, start)];
    }
  }
}
