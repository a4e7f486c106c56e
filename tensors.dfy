/**
 * Tensors as symbolic terms.
 *
 * The numerics of the network (convolutions, gates, sampling) are not
 * modelled. Instead every tensor is the expression that produced it: a
 * zero tensor, a tensor the caller handed in, a standard-normal draw, or a
 * call of one layer module on argument tensors. Two tensors are equal
 * exactly when they were produced by the same calls on the same arguments,
 * so "which hidden state a head reads" becomes an equation between terms.
 */
module Tensors {

  datatype Option<T> = None | Some(value: T)

  datatype Result<T, E> = Success(value: T) | Failure(error: E)

  /** The role a layer module plays in the network. */
  datatype Role =
    | GenerationCore
    | GenerationPrior
    | GenerationDownsampler
    | GenerationUpsampler
    | GenerationFinalUpsampler
    | GenerationObservation
    | InferenceCore
    | InferencePosterior
    | InferenceDownsampler
    | InferenceDownsamplerX
    | InferenceDownsamplerDiffXr

  /** A layer module: its role and its position in the model's parameter list. */
  datatype Link = Link(role: Role, id: nat)

  /** Which of the outputs of a recurrent core's `forward_onestep` a term denotes. */
  datatype StatePart = H | C | U

  /** The method of a layer module that a call invokes. */
  datatype Op =
    | Forward(part: StatePart, batchnormStep: Option<nat>)
    | MeanZ
    | LnVarZ
    | MeanX
    | Downsample
    | Upsample

  datatype Tensor =
    | Zeros(shape: seq<nat>)
    | Input(name: string)
    | Noise(rng: nat, step: nat)
    | Call(link: Link, op: Op, args: seq<Tensor>)
    | Add(left: Tensor, right: Tensor)
    | Sub(left: Tensor, right: Tensor)
    | Gaussian(mean: Tensor, lnVar: Tensor, eps: Tensor)
    | ChannelsBefore(x: Tensor, bound: nat)
    | ChannelsFrom(x: Tensor, bound: nat)

  /** `cf.gaussian(mean, ln_var)`: a reparameterised draw with fresh noise. */
  function Sample(mean: Tensor, lnVar: Tensor, rng: nat, step: nat): Tensor
  {
    Gaussian(mean, lnVar, Noise(rng, step))
  }

  /** The roles that belong to the inference network. */
  predicate InferenceRole(r: Role)
  {
    r in {InferenceCore, InferencePosterior, InferenceDownsampler, InferenceDownsamplerX, InferenceDownsamplerDiffXr}
  }

  /** Some call of an inference-network module occurs in `t`. */
  predicate UsesInference(t: Tensor)
  {
    match t
    case Zeros(_) => false
    case Input(_) => false
    case Noise(_, _) => false
    case Call(l, _, args) => InferenceRole(l.role) || SomeUsesInference(args)
    case Add(a, b) => UsesInference(a) || UsesInference(b)
    case Sub(a, b) => UsesInference(a) || UsesInference(b)
    case Gaussian(m, v, e) => UsesInference(m) || UsesInference(v) || UsesInference(e)
    case ChannelsBefore(x, _) => UsesInference(x)
    case ChannelsFrom(x, _) => UsesInference(x)
  }

  /** Some tensor of `ts` involves an inference-network module. */
  predicate SomeUsesInference(ts: seq<Tensor>)
  {
    ts != [] && (UsesInference(ts[0]) || SomeUsesInference(ts[1..]))
  }

  /** Some caller-supplied tensor occurs in `t`. */
  predicate HasInput(t: Tensor)
  {
    match t
    case Zeros(_) => false
    case Input(_) => true
    case Noise(_, _) => false
    case Call(_, _, args) => SomeHasInput(args)
    case Add(a, b) => HasInput(a) || HasInput(b)
    case Sub(a, b) => HasInput(a) || HasInput(b)
    case Gaussian(m, v, e) => HasInput(m) || HasInput(v) || HasInput(e)
    case ChannelsBefore(x, _) => HasInput(x)
    case ChannelsFrom(x, _) => HasInput(x)
  }

  /** Some tensor of `ts` contains a caller-supplied tensor. */
  predicate SomeHasInput(ts: seq<Tensor>)
  {
    ts != [] && (HasInput(ts[0]) || SomeHasInput(ts[1..]))
  }

  /** `SomeUsesInference` holds exactly when some element of the list involves an inference module. */
  lemma {:induction false} SomeUsesInferenceExists(ts: seq<Tensor>)
    ensures SomeUsesInference(ts) <==> exists a | a in ts :: UsesInference(a)
  {
    if ts != [] {
      SomeUsesInferenceExists(ts[1..]);
      if UsesInference(ts[0]) {
        assert ts[0] in ts;
      }
      if SomeUsesInference(ts[1..]) {
        var a :| a in ts[1..] && UsesInference(a);
        assert a in ts;
      }
      if exists a | a in ts :: UsesInference(a) {
        var a :| a in ts && UsesInference(a);
        assert ts == [ts[0]] + ts[1..];
        assert a == ts[0] || a in ts[1..];
      }
    }
  }

  /** `SomeHasInput` holds exactly when some element of the list contains a caller-supplied tensor. */
  lemma {:induction false} SomeHasInputExists(ts: seq<Tensor>)
    ensures SomeHasInput(ts) <==> exists a | a in ts :: HasInput(a)
  {
    if ts != [] {
      SomeHasInputExists(ts[1..]);
      if HasInput(ts[0]) {
        assert ts[0] in ts;
      }
      if SomeHasInput(ts[1..]) {
        var a :| a in ts[1..] && HasInput(a);
        assert a in ts;
      }
      if exists a | a in ts :: HasInput(a) {
        var a :| a in ts && HasInput(a);
        assert ts == [ts[0]] + ts[1..];
        assert a == ts[0] || a in ts[1..];
      }
    }
  }

  /**
   * The modules appended by one construction loop of `n` iterations when the
   * parameter list already holds `base` modules.
   */
  function Links(role: Role, base: nat, n: nat): (links: seq<Link>)
    ensures |links| == n
    ensures forall k :: 0 <= k < n ==> links[k] == Link(role, base + k)
  {
    seq(n, k requires 0 <= k < n => Link(role, base + k))
  }

  /** Every module sits at its own position in the parameter list. */
  ghost predicate Indexed(parameters: seq<Link>)
  {
    forall i :: 0 <= i < |parameters| ==> parameters[i].id == i
  }

  /** Appending a construction loop's modules keeps the parameter list indexed. */
  lemma IndexedAppend(parameters: seq<Link>, role: Role, n: nat)
    requires Indexed(parameters)
    ensures Indexed(parameters + Links(role, |parameters|, n))
  {
    var links := Links(role, |parameters|, n);
    forall i | 0 <= i < |parameters + links|
      ensures (parameters + links)[i].id == i
    {
      if i >= |parameters| {
        assert (parameters + links)[i] == links[i - |parameters|];
      }
    }
  }

  /** Resolve a step's module: element 0 when the role is shared, element `t` otherwise. */
  function Resolve(modules: seq<Link>, shared: bool, t: nat): Option<Link>
  {
    if shared then
      (if |modules| > 0 then Some(modules[0]) else None)
    else
      (if t < |modules| then Some(modules[t]) else None)
  }

  /**
   * Resolution against a list built with one module when shared and
   * `steps` modules otherwise never fails for a step below `steps`, yields
   * element 0 when shared and element `t` otherwise.
   */
  lemma ResolveInBounds(modules: seq<Link>, shared: bool, steps: nat, t: nat)
    requires |modules| == (if shared then 1 else steps)
    requires t < steps
    ensures Resolve(modules, shared, t) == Some(modules[if shared then 0 else t])
  {
  }
}
