/**
 * The step-unrolled ConvDRAW model of `models/lstm.py`: its construction
 * under the per-role sharing flags, the step-to-module resolvers, and the
 * three unroll loops (posterior step trace, posterior training pass, prior
 * sampling) that thread the generator state, the inference state and the
 * canvas from step to step.
 */
module LstmModel {
  import opened Tensors
  import opened Snapshots

  datatype HyperParameters = HyperParameters(
    generationSteps: nat,
    generatorShareCore: bool,
    generatorSharePrior: bool,
    generatorShareUpsampler: bool,
    inferenceShareCore: bool,
    inferenceSharePosterior: bool,
    chzChannels: nat,
    imageSize: seq<nat>)

  /** The exceptions an unroll can raise. */
  datatype Error =
    | IndexError      // a resolver indexed past the end of a module list
    | ShapeMismatch   // a 6-channel upsampler output added to the 3-channel canvas
    | UnboundLocal    // the loop never reached a final step, so `mu_x` is unbound

  /** Spatial side of the hidden state fixed in `generate_initial_state`. */
  const HiddenSide: nat := 32

  /** Sub-pixel upsampling factor of every upsampler. */
  const Scale: nat := 4

  /** Number of modules one construction loop builds: one when the role is shared, one per step otherwise. */
  function ModuleCount(shared: bool, steps: nat): nat
  {
    if shared then 1 else steps
  }

  /** Number of regular upsamplers; `range(generation_steps - 1)` is empty when there are no steps. */
  function RegularUpsamplerCount(hp: HyperParameters): nat
  {
    if hp.generatorShareUpsampler then 1
    else if hp.generationSteps == 0 then 0
    else hp.generationSteps - 1
  }

  /**
   * Channels of an upsampler's output once its convolution's channels are
   * rearranged into a `Scale` times larger image: regular upsamplers convolve
   * to 3·Scale² channels, the final one to 6·Scale².
   */
  function UpsampledChannels(upsampler: Link): nat
  {
    var convChannels := if upsampler.role == GenerationFinalUpsampler then 6 * Scale * Scale else 3 * Scale * Scale;
    convChannels / (Scale * Scale)
  }

  /** The modules of a built model, in the fields `__init__` assigns. */
  datatype Network = Network(
    hp: HyperParameters,
    generationCores: seq<Link>,
    generationPriors: seq<Link>,
    generationDownsampler: Link,
    generationUpsamplers: seq<Link>,
    generationFinalUpsampler: Link,
    inferenceCores: seq<Link>,
    inferencePosteriors: seq<Link>,
    inferenceDownsamplerX: Link,
    inferenceDownsamplerDiffXr: Link,
    parameters: seq<Link>)
  {
    function GenerationCore(t: nat): Option<Link>
    {
      Resolve(generationCores, hp.generatorShareCore, t)
    }

    function GenerationPrior(t: nat): Option<Link>
    {
      Resolve(generationPriors, hp.generatorSharePrior, t)
    }

    function GenerationUpsampler(t: nat): Option<Link>
    {
      Resolve(generationUpsamplers, hp.generatorShareUpsampler, t)
    }

    function InferenceCore(t: nat): Option<Link>
    {
      Resolve(inferenceCores, hp.inferenceShareCore, t)
    }

    function InferencePosterior(t: nat): Option<Link>
    {
      Resolve(inferencePosteriors, hp.inferenceSharePosterior, t)
    }
  }

  ghost predicate AllRole(links: seq<Link>, role: Role)
  {
    forall k :: 0 <= k < |links| ==> links[k].role == role
  }

  /** The shape of a network as `build_generation_network` and `build_inference_network` leave it. */
  ghost predicate WellBuilt(net: Network)
  {
    var hp := net.hp;
    var steps := hp.generationSteps;
    && |net.generationCores| == ModuleCount(hp.generatorShareCore, steps)
    && |net.generationPriors| == ModuleCount(hp.generatorSharePrior, steps)
    && |net.generationUpsamplers| == RegularUpsamplerCount(hp) + 1
    && |net.inferenceCores| == ModuleCount(hp.inferenceShareCore, steps)
    && |net.inferencePosteriors| == ModuleCount(hp.inferenceSharePosterior, steps)
    && AllRole(net.generationCores, GenerationCore)
    && AllRole(net.generationPriors, GenerationPrior)
    && AllRole(net.generationUpsamplers[..RegularUpsamplerCount(hp)], GenerationUpsampler)
    && net.generationUpsamplers[RegularUpsamplerCount(hp)] == net.generationFinalUpsampler
    && net.generationFinalUpsampler.role == GenerationFinalUpsampler
    && net.generationDownsampler.role == GenerationDownsampler
    && AllRole(net.inferenceCores, InferenceCore)
    && AllRole(net.inferencePosteriors, InferencePosterior)
    && net.inferenceDownsamplerX.role == InferenceDownsamplerX
    && net.inferenceDownsamplerDiffXr.role == InferenceDownsamplerDiffXr
  }

  /** The parameter list holds every module once, in the order the construction passes append them. */
  ghost predicate ParametersInOrder(net: Network)
  {
    && net.parameters == net.generationCores + net.generationPriors + [net.generationDownsampler]
                         + net.generationUpsamplers + net.inferenceCores + net.inferencePosteriors
                         + [net.inferenceDownsamplerX, net.inferenceDownsamplerDiffXr]
    && Indexed(net.parameters)
  }

  /** The construction loops, run in order on an empty parameter list, leave a well-built network. */
  lemma BuiltNetworkWellBuilt(net: Network)
    requires |net.generationCores| == ModuleCount(net.hp.generatorShareCore, net.hp.generationSteps)
    requires |net.generationPriors| == ModuleCount(net.hp.generatorSharePrior, net.hp.generationSteps)
    requires |net.generationUpsamplers| == RegularUpsamplerCount(net.hp) + 1
    requires |net.inferenceCores| == ModuleCount(net.hp.inferenceShareCore, net.hp.generationSteps)
    requires |net.inferencePosteriors| == ModuleCount(net.hp.inferenceSharePosterior, net.hp.generationSteps)
    requires AllRole(net.generationCores, GenerationCore) && AllRole(net.generationPriors, GenerationPrior)
    requires AllRole(net.generationUpsamplers[..RegularUpsamplerCount(net.hp)], GenerationUpsampler)
    requires net.generationUpsamplers[RegularUpsamplerCount(net.hp)] == net.generationFinalUpsampler
    requires net.generationFinalUpsampler.role == GenerationFinalUpsampler
    requires net.generationDownsampler.role == GenerationDownsampler
    requires AllRole(net.inferenceCores, InferenceCore) && AllRole(net.inferencePosteriors, InferencePosterior)
    requires net.inferenceDownsamplerX.role == InferenceDownsamplerX
    requires net.inferenceDownsamplerDiffXr.role == InferenceDownsamplerDiffXr
    requires net.parameters == [] + net.generationCores + net.generationPriors + [net.generationDownsampler]
                               + net.generationUpsamplers + net.inferenceCores + net.inferencePosteriors
                               + [net.inferenceDownsamplerX, net.inferenceDownsamplerDiffXr]
    requires Indexed(net.parameters)
    ensures WellBuilt(net) && ParametersInOrder(net)
  {
    assert [] + net.generationCores == net.generationCores;
  }

  // ---------------------------------------------------------------------
  // The unroll, as a specification
  // ---------------------------------------------------------------------

  /**
   * Which of the three unrolls runs: the posterior training pass on image
   * `x`, the posterior step trace on `x` (optionally without sampling noise),
   * or sampling from the prior.
   */
  datatype Mode =
    | Training(x: Tensor)
    | Trace(x: Tensor, zeroVariance: bool)
    | PriorOnly
  {
    /** The inference core and posterior are consulted. */
    predicate Encodes() { !PriorOnly? }

    /** The generation prior is consulted. */
    predicate ConsultsPrior() { !Trace? }
  }

  /** The five recurrent variables of an unroll: generator state, inference state and canvas. */
  datatype State = State(hGen: Tensor, cGen: Tensor, hEnc: Tensor, cEnc: Tensor, r: Tensor)

  /** One entry of the latent-parameter list: posterior mean and log-variance, then the prior's. */
  datatype LatentParams = LatentParams(meanQ: Tensor, lnVarQ: Tensor, meanP: Tensor, lnVarP: Tensor)

  /** The modules one step resolves; a role the mode does not consult is `None`. */
  datatype StepModules = StepModules(
    encoder: Option<Link>,
    posterior: Option<Link>,
    core: Link,
    prior: Option<Link>,
    upsampler: Link)

  /** The regular steps done so far: the current state, the latent parameters and canvases collected. */
  datatype Progress = Progress(state: State, params: seq<LatentParams>, canvases: seq<Tensor>)

  /** What a completed unroll returns. */
  datatype Unrolled = Unrolled(params: seq<LatentParams>, muX: Tensor, lnVarX: Tensor, canvases: seq<Tensor>)

  predicate Fits(m: StepModules, mode: Mode)
  {
    && (m.encoder.Some? <==> mode.Encodes())
    && (m.posterior.Some? <==> mode.Encodes())
    && (m.prior.Some? <==> mode.ConsultsPrior())
  }

  /** `generate_initial_state`: zero hidden and cell states of `HiddenSide`², a zero 3-channel canvas. */
  function InitialState(hp: HyperParameters, batch: nat): (s: State)
    ensures s.hGen == s.cGen == s.hEnc == s.cEnc == Zeros([batch, hp.chzChannels, HiddenSide, HiddenSide])
    ensures s.r == Zeros([batch, 3] + hp.imageSize)
  {
    var hidden := Zeros([batch, hp.chzChannels, HiddenSide, HiddenSide]);
    State(hidden, hidden, hidden, hidden, Zeros([batch, 3] + hp.imageSize))
  }

  /** The batch-normalisation step a core is called with: the step itself when the core is shared, else 1. */
  function BatchnormStep(shared: bool, t: nat): Option<nat>
  {
    Some(if shared then t else 1)
  }

  /**
   * The module lookups of step `t`, in the order the loop body does them,
   * and the canvas update's channel check on a non-final step.
   */
  function Lookup(net: Network, mode: Mode, t: nat, isFinal: bool): (r: Result<StepModules, Error>)
    ensures r.Success? ==> Fits(r.value, mode) && net.GenerationCore(t) == Some(r.value.core)
    ensures r.Success? && mode.Encodes() ==>
              r.value.encoder == net.InferenceCore(t) && r.value.posterior == net.InferencePosterior(t)
    ensures r.Success? && mode.ConsultsPrior() ==> r.value.prior == net.GenerationPrior(t)
    ensures r.Success? && isFinal ==> r.value.upsampler == net.generationFinalUpsampler
    ensures r.Success? && !isFinal ==>
              net.GenerationUpsampler(t) == Some(r.value.upsampler) && UpsampledChannels(r.value.upsampler) == 3
    ensures r == Failure(IndexError) <==>
              || (mode.Encodes() && (net.InferenceCore(t).None? || net.InferencePosterior(t).None?))
              || net.GenerationCore(t).None?
              || (mode.ConsultsPrior() && net.GenerationPrior(t).None?)
              || (!isFinal && net.GenerationUpsampler(t).None?)
    ensures r != Failure(UnboundLocal)
  {
    var encoder := if mode.Encodes() then net.InferenceCore(t) else None;
    var posterior := if mode.Encodes() then net.InferencePosterior(t) else None;
    var core := net.GenerationCore(t);
    var prior := if mode.ConsultsPrior() then net.GenerationPrior(t) else None;
    var upsampler := if isFinal then Some(net.generationFinalUpsampler) else net.GenerationUpsampler(t);
    if (mode.Encodes() && (encoder.None? || posterior.None?)) || core.None?
       || (mode.ConsultsPrior() && prior.None?) || upsampler.None? then
      Failure(IndexError)
    else if !isFinal && UpsampledChannels(upsampler.value) != 3 then
      Failure(ShapeMismatch)
    else
      Success(StepModules(encoder, posterior, core.value, prior, upsampler.value))
  }

  /** The inference core's update; the prior-only unroll leaves the inference state alone. */
  function EncoderNext(net: Network, mode: Mode, m: StepModules, s: State, t: nat): (Tensor, Tensor)
    requires Fits(m, mode)
  {
    if mode.Encodes() then
      var bn := BatchnormStep(net.hp.inferenceShareCore, t);
      var args := [s.hGen, s.hEnc, s.cEnc,
                   Call(net.inferenceDownsamplerX, Downsample, [mode.x]),
                   Call(net.inferenceDownsamplerDiffXr, Downsample, [Sub(mode.x, s.r)])];
      (Call(m.encoder.value, Forward(H, bn), args), Call(m.encoder.value, Forward(C, bn), args))
    else
      (s.hEnc, s.cEnc)
  }

  /** The latent parameters the step records: only the training pass records any. */
  function Recorded(mode: Mode, m: StepModules, s: State): seq<LatentParams>
    requires Fits(m, mode)
  {
    if mode.Training? then
      [LatentParams(Call(m.posterior.value, MeanZ, [s.hEnc]), Call(m.posterior.value, LnVarZ, [s.hEnc]),
                    Call(m.prior.value, MeanZ, [s.hGen]), Call(m.prior.value, LnVarZ, [s.hGen]))]
    else []
  }

  /** The step's latent: drawn from the posterior on `hEnc`, or from the prior on `hGen`. */
  function Latent(mode: Mode, m: StepModules, s: State, rng: nat, t: nat): Tensor
    requires Fits(m, mode)
  {
    match mode
    case Training(_) => Sample(Call(m.posterior.value, MeanZ, [s.hEnc]), Call(m.posterior.value, LnVarZ, [s.hEnc]), rng, t)
    case Trace(_, zeroVariance) =>
      if zeroVariance then Call(m.posterior.value, MeanZ, [s.hEnc])
      else Sample(Call(m.posterior.value, MeanZ, [s.hEnc]), Call(m.posterior.value, LnVarZ, [s.hEnc]), rng, t)
    case PriorOnly => Sample(Call(m.prior.value, MeanZ, [s.hGen]), Call(m.prior.value, LnVarZ, [s.hGen]), rng, t)
  }

  /** The generator core's update on the step's latent and the downsampled canvas. */
  function GeneratorNext(net: Network, m: StepModules, s: State, z: Tensor, t: nat): (Tensor, Tensor)
  {
    var bn := BatchnormStep(net.hp.generatorShareCore, t);
    var args := [s.hGen, s.cGen, z, Call(net.generationDownsampler, Downsample, [s.r])];
    (Call(m.core, Forward(H, bn), args), Call(m.core, Forward(C, bn), args))
  }

  /** A non-final step: every state variable moves on and the new canvas is recorded. */
  function Advance(net: Network, mode: Mode, rng: nat, t: nat, m: StepModules, p: Progress): Progress
    requires Fits(m, mode)
  {
    var s := p.state;
    var (hEnc, cEnc) := EncoderNext(net, mode, m, s, t);
    var (hGen, cGen) := GeneratorNext(net, m, s, Latent(mode, m, s, rng, t), t);
    var r := Add(s.r, Call(m.upsampler, Upsample, [hGen]));
    Progress(State(hGen, cGen, hEnc, cEnc, r), p.params + Recorded(mode, m, s), p.canvases + [r])
  }

  /** The final step: the final upsampler's output is split into the observation mean and log-variance. */
  function Finish(net: Network, mode: Mode, rng: nat, t: nat, m: StepModules, p: Progress): Unrolled
    requires Fits(m, mode)
  {
    var s := p.state;
    var (hGen, _) := GeneratorNext(net, m, s, Latent(mode, m, s, rng, t), t);
    var xParam := Call(m.upsampler, Upsample, [hGen]);
    Unrolled(p.params + Recorded(mode, m, s), Add(ChannelsBefore(xParam, 3), s.r), ChannelsFrom(xParam, 3), p.canvases)
  }

  /** The first `t` steps, all taken as non-final, or the error one of them raises. */
  function Prefix(net: Network, mode: Mode, batch: nat, rng: nat, t: nat): (r: Result<Progress, Error>)
    ensures r != Failure(UnboundLocal)
    ensures r.Success? ==> |r.value.canvases| == t
    ensures r.Success? ==> |r.value.params| == if mode.Training? then t else 0
  {
    if t == 0 then Success(Progress(InitialState(net.hp, batch), [], []))
    else
      match Prefix(net, mode, batch, rng, t - 1)
      case Failure(e) => Failure(e)
      case Success(p) =>
        match Lookup(net, mode, t - 1, false)
        case Failure(e) => Failure(e)
        case Success(m) => Success(Advance(net, mode, rng, t - 1, m, p))
  }

  /** An unroll of `limit` steps, the last of which is final. */
  function Unroll(net: Network, mode: Mode, batch: nat, rng: nat, limit: nat): (r: Result<Unrolled, Error>)
    ensures limit == 0 <==> r == Failure(UnboundLocal)
    ensures r.Success? ==> |r.value.canvases| == limit - 1
    ensures r.Success? ==> |r.value.params| == if mode.Training? then limit else 0
  {
    if limit == 0 then Failure(UnboundLocal)
    else
      match Prefix(net, mode, batch, rng, limit - 1)
      case Failure(e) => Failure(e)
      case Success(p) =>
        match Lookup(net, mode, limit - 1, true)
        case Failure(e) => Failure(e)
        case Success(m) => Success(Finish(net, mode, rng, limit - 1, m, p))
  }

  /** Once a prefix fails, every longer prefix fails with the same error. */
  lemma {:induction false} PrefixFailureStable(net: Network, mode: Mode, batch: nat, rng: nat, k: nat, j: nat)
    requires k <= j && Prefix(net, mode, batch, rng, k).Failure?
    ensures Prefix(net, mode, batch, rng, j) == Prefix(net, mode, batch, rng, k)
    decreases j
  {
    if j > k {
      PrefixFailureStable(net, mode, batch, rng, k, j - 1);
    }
  }

  /** A lookup that fails at a step the unroll reaches makes the whole unroll fail with its error. */
  lemma StepFailure(net: Network, mode: Mode, batch: nat, rng: nat, t: nat, limit: nat, e: Error)
    requires t < limit && Prefix(net, mode, batch, rng, t).Success?
    requires Lookup(net, mode, t, t == limit - 1) == Failure(e)
    ensures Unroll(net, mode, batch, rng, limit) == Failure(e)
  {
    if t < limit - 1 {
      assert Prefix(net, mode, batch, rng, t + 1) == Failure(e);
      PrefixFailureStable(net, mode, batch, rng, t + 1, limit - 1);
    }
  }

  // ---------------------------------------------------------------------
  // The model object and its construction
  // ---------------------------------------------------------------------

  class LSTMModel {
    const hp: HyperParameters
    var generationCores: seq<Link>
    var generationPriors: seq<Link>
    var generationDownsampler: Link
    var generationUpsamplers: seq<Link>
    var generationFinalUpsampler: Link
    var inferenceCores: seq<Link>
    var inferencePosteriors: seq<Link>
    var inferenceDownsamplerX: Link
    var inferenceDownsamplerDiffXr: Link
    /** The `ChainList` every module is appended to, in construction order. */
    var parameters: seq<Link>
    var weights: Weights

    function Net(): Network
      reads this
    {
      Network(hp, generationCores, generationPriors, generationDownsampler, generationUpsamplers,
              generationFinalUpsampler, inferenceCores, inferencePosteriors, inferenceDownsamplerX,
              inferenceDownsamplerDiffXr, parameters)
    }

    ghost predicate Valid()
      reads this
    {
      WellBuilt(Net()) && ParametersInOrder(Net())
    }

    constructor (hyperparams: HyperParameters, snapshotDirectory: Option<string>, snapshot: SnapshotFile)
      ensures Valid() && hp == hyperparams
      ensures weights == RestoreWeights(snapshotDirectory, snapshot)
    {
      hp := hyperparams;
      parameters := [];
      new;
      var built := BuildNetwork();
      Install(built);
      weights := RestoreWeights(snapshotDirectory, snapshot);
    }

    /** Assign the built modules to the model's fields. */
    method Install(net: Network)
      requires net.hp == hp
      modifies this
      ensures Net() == net && weights == old(weights)
    {
      generationCores, generationPriors, generationDownsampler := net.generationCores, net.generationPriors, net.generationDownsampler;
      generationUpsamplers, generationFinalUpsampler := net.generationUpsamplers, net.generationFinalUpsampler;
      inferenceCores, inferencePosteriors := net.inferenceCores, net.inferencePosteriors;
      inferenceDownsamplerX, inferenceDownsamplerDiffXr := net.inferenceDownsamplerX, net.inferenceDownsamplerDiffXr;
      parameters := net.parameters;
    }

    /** Both construction passes on an empty parameter list; the modules they build, as a value. */
    method BuildNetwork() returns (net: Network)
      requires parameters == []
      modifies this`parameters
      ensures WellBuilt(net) && ParametersInOrder(net) && net.hp == hp && net.parameters == parameters
    {
      var cores, priors, downsampler, upsamplers, finalUpsampler := BuildGenerationNetwork();
      var infCores, posteriors, downsamplerX, downsamplerDiffXr := BuildInferenceNetwork();
      net := Network(hp, cores, priors, downsampler, upsamplers, finalUpsampler,
                     infCores, posteriors, downsamplerX, downsamplerDiffXr, parameters);
      BuiltNetworkWellBuilt(net);
    }

    /** One construction loop: append `n` fresh modules of one role to `parameters`. */
    method AppendModules(role: Role, n: nat) returns (links: seq<Link>)
      requires Indexed(parameters)
      modifies this`parameters
      ensures links == Links(role, old(|parameters|), n)
      ensures parameters == old(parameters) + links
      ensures Indexed(parameters)
    {
      links := [];
      var i := 0;
      while i < n
        invariant 0 <= i <= n
        invariant links == Links(role, old(|parameters|), i)
        invariant parameters == old(parameters) + links
      {
        var created := Link(role, |parameters|);
        links := links + [created];
        parameters := parameters + [created];
        i := i + 1;
      }
      IndexedAppend(old(parameters), role, n);
    }

    method BuildGenerationNetwork()
      returns (cores: seq<Link>, priors: seq<Link>, downsampler: Link, upsamplers: seq<Link>, finalUpsampler: Link)
      requires Indexed(parameters)
      modifies this`parameters
      ensures |cores| == ModuleCount(hp.generatorShareCore, hp.generationSteps) && AllRole(cores, GenerationCore)
      ensures |priors| == ModuleCount(hp.generatorSharePrior, hp.generationSteps) && AllRole(priors, GenerationPrior)
      ensures downsampler.role == GenerationDownsampler
      ensures |upsamplers| == RegularUpsamplerCount(hp) + 1
      ensures AllRole(upsamplers[..RegularUpsamplerCount(hp)], GenerationUpsampler)
      ensures upsamplers[RegularUpsamplerCount(hp)] == finalUpsampler
      ensures finalUpsampler.role == GenerationFinalUpsampler
      ensures parameters == old(parameters) + cores + priors + [downsampler] + upsamplers
      ensures Indexed(parameters)
    {
      cores := AppendModules(GenerationCore, ModuleCount(hp.generatorShareCore, hp.generationSteps));
      priors := AppendModules(GenerationPrior, ModuleCount(hp.generatorSharePrior, hp.generationSteps));
      var downsamplers := AppendModules(GenerationDownsampler, 1);
      downsampler := downsamplers[0];
      var regular := AppendModules(GenerationUpsampler, RegularUpsamplerCount(hp));
      var finals := AppendModules(GenerationFinalUpsampler, 1);
      finalUpsampler := finals[0];
      upsamplers := regular + [finalUpsampler];
      assert upsamplers[..RegularUpsamplerCount(hp)] == regular;
    }

    method BuildInferenceNetwork()
      returns (cores: seq<Link>, posteriors: seq<Link>, downsamplerX: Link, downsamplerDiffXr: Link)
      requires Indexed(parameters)
      modifies this`parameters
      ensures |cores| == ModuleCount(hp.inferenceShareCore, hp.generationSteps) && AllRole(cores, InferenceCore)
      ensures |posteriors| == ModuleCount(hp.inferenceSharePosterior, hp.generationSteps)
      ensures AllRole(posteriors, InferencePosterior)
      ensures downsamplerX.role == InferenceDownsamplerX
      ensures downsamplerDiffXr.role == InferenceDownsamplerDiffXr
      ensures parameters == old(parameters) + cores + posteriors + [downsamplerX, downsamplerDiffXr]
      ensures Indexed(parameters)
    {
      cores := AppendModules(InferenceCore, ModuleCount(hp.inferenceShareCore, hp.generationSteps));
      posteriors := AppendModules(InferencePosterior, ModuleCount(hp.inferenceSharePosterior, hp.generationSteps));
      var xs := AppendModules(InferenceDownsamplerX, 1);
      var diffs := AppendModules(InferenceDownsamplerDiffXr, 1);
      downsamplerX, downsamplerDiffXr := xs[0], diffs[0];
    }

    /**
     * `sample_z_and_x_params_from_posterior`: the training pass over all
     * `generationSteps` steps, recording the posterior's and the prior's
     * latent parameters at every step and the canvas after every non-final one.
     */
    method SampleZAndXParamsFromPosterior(x: Tensor, batch: nat, rng: nat) returns (r: Result<Unrolled, Error>)
      ensures r == Unroll(Net(), Training(x), batch, rng, hp.generationSteps)
    {
      ghost var mode := Training(x);
      var steps := hp.generationSteps;
      var initial := InitialState(hp, batch);
      var hEnc, cEnc, hGen, cGen, canvas := initial.hEnc, initial.cEnc, initial.hGen, initial.cGen, initial.r;
      var downsampledX := Call(inferenceDownsamplerX, Downsample, [x]);
      var zParams: seq<LatentParams> := [];
      var canvases: seq<Tensor> := [];
      var xParams: Option<(Tensor, Tensor)> := None;
      var t := 0;
      while t < steps
        invariant 0 <= t <= steps
        invariant t < steps || steps == 0 ==>
          && xParams.None?
          && Prefix(Net(), mode, batch, rng, t) == Success(Progress(State(hGen, cGen, hEnc, cEnc, canvas), zParams, canvases))
        invariant t == steps > 0 ==>
          && xParams.Some?
          && Unroll(Net(), mode, batch, rng, steps) == Success(Unrolled(zParams, xParams.value.0, xParams.value.1, canvases))
      {
        var isFinal := t == steps - 1;
        var encoder := Net().InferenceCore(t);
        var posterior := Net().InferencePosterior(t);
        var core := Net().GenerationCore(t);
        var prior := Net().GenerationPrior(t);
        if encoder.None? || posterior.None? || core.None? || prior.None? {
          StepFailure(Net(), mode, batch, rng, t, steps, IndexError);
          return Failure(IndexError);
        }
        var upsampler := generationFinalUpsampler;
        if !isFinal {
          var regular := Net().GenerationUpsampler(t);
          if regular.None? {
            StepFailure(Net(), mode, batch, rng, t, steps, IndexError);
            return Failure(IndexError);
          }
          upsampler := regular.value;
        }

        var downsampledDiff := Call(inferenceDownsamplerDiffXr, Downsample, [Sub(x, canvas)]);
        var encoderStep := BatchnormStep(hp.inferenceShareCore, t);
        var encoderArgs := [hGen, hEnc, cEnc, downsampledX, downsampledDiff];
        var hNextEnc := Call(encoder.value, Forward(H, encoderStep), encoderArgs);
        var cNextEnc := Call(encoder.value, Forward(C, encoderStep), encoderArgs);

        var meanQ := Call(posterior.value, MeanZ, [hEnc]);
        var lnVarQ := Call(posterior.value, LnVarZ, [hEnc]);
        var z := Sample(meanQ, lnVarQ, rng, t);
        var meanP := Call(prior.value, MeanZ, [hGen]);
        var lnVarP := Call(prior.value, LnVarZ, [hGen]);

        var generatorStep := BatchnormStep(hp.generatorShareCore, t);
        var generatorArgs := [hGen, cGen, z, Call(generationDownsampler, Downsample, [canvas])];
        var hNextGen := Call(core.value, Forward(H, generatorStep), generatorArgs);
        var cNextGen := Call(core.value, Forward(C, generatorStep), generatorArgs);

        zParams := zParams + [LatentParams(meanQ, lnVarQ, meanP, lnVarP)];
        var xParam := Call(upsampler, Upsample, [hNextGen]);
        if isFinal {
          xParams := Some((Add(ChannelsBefore(xParam, 3), canvas), ChannelsFrom(xParam, 3)));
        } else {
          if UpsampledChannels(upsampler) != 3 {
            StepFailure(Net(), mode, batch, rng, t, steps, ShapeMismatch);
            return Failure(ShapeMismatch);
          }
          canvas := Add(canvas, xParam);
          hGen, cGen, hEnc, cEnc := hNextGen, cNextGen, hNextEnc, cNextEnc;
          canvases := canvases + [canvas];
        }
        t := t + 1;
      }
      if xParams.None? {
        return Failure(UnboundLocal);
      }
      r := Success(Unrolled(zParams, xParams.value.0, xParams.value.1, canvases));
    }

    /**
     * `sample_image_at_each_step_from_posterior`: the step trace, run for
     * `stepLimit` steps (by default `generationSteps`); with `zeroVariance`
     * the latent is the posterior mean instead of a draw.
     */
    method SampleImageAtEachStepFromPosterior(x: Tensor, zeroVariance: bool, stepLimit: Option<nat>, batch: nat, rng: nat)
      returns (r: Result<Unrolled, Error>)
      ensures r == Unroll(Net(), Trace(x, zeroVariance), batch, rng,
                          if stepLimit.Some? then stepLimit.value else hp.generationSteps)
      ensures r.Success? ==> r.value.params == []
    {
      ghost var mode := Trace(x, zeroVariance);
      var limit := if stepLimit.Some? then stepLimit.value else hp.generationSteps;
      var initial := InitialState(hp, batch);
      var hEnc, cEnc, hGen, cGen, canvas := initial.hEnc, initial.cEnc, initial.hGen, initial.cGen, initial.r;
      var downsampledX := Call(inferenceDownsamplerX, Downsample, [x]);
      var canvases: seq<Tensor> := [];
      var xParams: Option<(Tensor, Tensor)> := None;
      var t := 0;
      while t < limit
        invariant 0 <= t <= limit
        invariant t < limit || limit == 0 ==>
          && xParams.None?
          && Prefix(Net(), mode, batch, rng, t) == Success(Progress(State(hGen, cGen, hEnc, cEnc, canvas), [], canvases))
        invariant t == limit > 0 ==>
          && xParams.Some?
          && Unroll(Net(), mode, batch, rng, limit) == Success(Unrolled([], xParams.value.0, xParams.value.1, canvases))
      {
        ghost var old_hGen, old_cGen, old_hEnc, old_cEnc, old_canvas, old_canvases := hGen, cGen, hEnc, cEnc, canvas, canvases;
        var isFinal := t == limit - 1;
        var encoder := Net().InferenceCore(t);
        var posterior := Net().InferencePosterior(t);
        var core := Net().GenerationCore(t);
        if encoder.None? || posterior.None? || core.None? {
          StepFailure(Net(), mode, batch, rng, t, limit, IndexError);
          return Failure(IndexError);
        }
        var upsampler := generationFinalUpsampler;
        if !isFinal {
          var regular := Net().GenerationUpsampler(t);
          if regular.None? {
            StepFailure(Net(), mode, batch, rng, t, limit, IndexError);
            return Failure(IndexError);
          }
          upsampler := regular.value;
        }

        var downsampledDiff := Call(inferenceDownsamplerDiffXr, Downsample, [Sub(x, canvas)]);
        var encoderStep := BatchnormStep(hp.inferenceShareCore, t);
        var encoderArgs := [hGen, hEnc, cEnc, downsampledX, downsampledDiff];
        var hNextEnc := Call(encoder.value, Forward(H, encoderStep), encoderArgs);
        var cNextEnc := Call(encoder.value, Forward(C, encoderStep), encoderArgs);

        var meanQ := Call(posterior.value, MeanZ, [hEnc]);
        var lnVarQ := Call(posterior.value, LnVarZ, [hEnc]);
        var z := if zeroVariance then meanQ else Sample(meanQ, lnVarQ, rng, t);

        var generatorStep := BatchnormStep(hp.generatorShareCore, t);
        var generatorArgs := [hGen, cGen, z, Call(generationDownsampler, Downsample, [canvas])];
        var hNextGen := Call(core.value, Forward(H, generatorStep), generatorArgs);
        var cNextGen := Call(core.value, Forward(C, generatorStep), generatorArgs);

        var xParam := Call(upsampler, Upsample, [hNextGen]);
        if isFinal {
          xParams := Some((Add(ChannelsBefore(xParam, 3), canvas), ChannelsFrom(xParam, 3)));
          ghost var m := StepModules(encoder, posterior, core.value, None, upsampler);
          assert Lookup(Net(), mode, t, true) == Success(m);
          ghost var s0 := State(hGen, cGen, hEnc, cEnc, canvas);
          assert Latent(mode, m, s0, rng, t) == z;
          assert GeneratorNext(Net(), m, s0, z, t).0 == hNextGen;
          assert Recorded(mode, m, s0) == [];
          assert Finish(Net(), mode, rng, t, m, Progress(s0, [], canvases)) == Unrolled([], xParams.value.0, xParams.value.1, canvases);
          assert Prefix(Net(), mode, batch, rng, limit - 1) == Success(Progress(s0, [], canvases));
        } else {
          hGen, cGen, hEnc, cEnc := hNextGen, cNextGen, hNextEnc, cNextEnc;
          if UpsampledChannels(upsampler) != 3 {
            StepFailure(Net(), mode, batch, rng, t, limit, ShapeMismatch);
            return Failure(ShapeMismatch);
          }
          canvas := Add(canvas, xParam);
          canvases := canvases + [canvas];
          ghost var m := StepModules(encoder, posterior, core.value, None, upsampler);
          assert Lookup(Net(), mode, t, false) == Success(m);
          ghost var s0 := State(old_hGen, old_cGen, old_hEnc, old_cEnc, old_canvas);
          assert Latent(mode, m, s0, rng, t) == z;
          assert EncoderNext(Net(), mode, m, s0, t) == (hEnc, cEnc);
          assert GeneratorNext(Net(), m, s0, z, t) == (hGen, cGen);
          assert Advance(Net(), mode, rng, t, m, Progress(s0, [], old_canvases)) == Progress(State(hGen, cGen, hEnc, cEnc, canvas), [], canvases);
        }
        t := t + 1;
      }
      if xParams.None? {
        return Failure(UnboundLocal);
      }
      r := Success(Unrolled([], xParams.value.0, xParams.value.1, canvases));
    }

    /**
     * `sample_image_at_each_step_from_prior`: all `generationSteps` steps
     * with latents drawn from the prior; no inference module and no image
     * is involved.
     */
    method SampleImageAtEachStepFromPrior(batch: nat, rng: nat) returns (r: Result<Unrolled, Error>)
      ensures r == Unroll(Net(), PriorOnly, batch, rng, hp.generationSteps)
      ensures r.Success? ==> r.value.params == []
    {
      ghost var mode := PriorOnly;
      var steps := hp.generationSteps;
      var initial := InitialState(hp, batch);
      ghost var hEnc, cEnc := initial.hEnc, initial.cEnc;
      var hGen, cGen, canvas := initial.hGen, initial.cGen, initial.r;
      var canvases: seq<Tensor> := [];
      var xParams: Option<(Tensor, Tensor)> := None;
      var t := 0;
      while t < steps
        invariant 0 <= t <= steps
        invariant t < steps || steps == 0 ==>
          && xParams.None?
          && Prefix(Net(), mode, batch, rng, t) == Success(Progress(State(hGen, cGen, hEnc, cEnc, canvas), [], canvases))
        invariant t == steps > 0 ==>
          && xParams.Some?
          && Unroll(Net(), mode, batch, rng, steps) == Success(Unrolled([], xParams.value.0, xParams.value.1, canvases))
      {
        ghost var old_hGen, old_cGen, old_canvas, old_canvases := hGen, cGen, canvas, canvases;
        var isFinal := t == steps - 1;
        var core := Net().GenerationCore(t);
        var prior := Net().GenerationPrior(t);
        if core.None? || prior.None? {
          StepFailure(Net(), mode, batch, rng, t, steps, IndexError);
          return Failure(IndexError);
        }
        var upsampler := generationFinalUpsampler;
        if !isFinal {
          var regular := Net().GenerationUpsampler(t);
          if regular.None? {
            StepFailure(Net(), mode, batch, rng, t, steps, IndexError);
            return Failure(IndexError);
          }
          upsampler := regular.value;
        }

        var generatorStep := BatchnormStep(hp.generatorShareCore, t);
        var meanP := Call(prior.value, MeanZ, [hGen]);
        var lnVarP := Call(prior.value, LnVarZ, [hGen]);
        var z := Sample(meanP, lnVarP, rng, t);

        var generatorArgs := [hGen, cGen, z, Call(generationDownsampler, Downsample, [canvas])];
        var hNextGen := Call(core.value, Forward(H, generatorStep), generatorArgs);
        var cNextGen := Call(core.value, Forward(C, generatorStep), generatorArgs);

        var xParam := Call(upsampler, Upsample, [hNextGen]);
        if isFinal {
          xParams := Some((Add(ChannelsBefore(xParam, 3), canvas), ChannelsFrom(xParam, 3)));
          ghost var m := StepModules(None, None, core.value, prior, upsampler);
          assert Lookup(Net(), mode, t, true) == Success(m);
          ghost var s0 := State(hGen, cGen, hEnc, cEnc, canvas);
          assert Latent(mode, m, s0, rng, t) == z;
          assert GeneratorNext(Net(), m, s0, z, t).0 == hNextGen;
          assert Recorded(mode, m, s0) == [];
          assert Finish(Net(), mode, rng, t, m, Progress(s0, [], canvases)) == Unrolled([], xParams.value.0, xParams.value.1, canvases);
          assert Prefix(Net(), mode, batch, rng, steps - 1) == Success(Progress(s0, [], canvases));
        } else {
          hGen, cGen := hNextGen, cNextGen;
          if UpsampledChannels(upsampler) != 3 {
            StepFailure(Net(), mode, batch, rng, t, steps, ShapeMismatch);
            return Failure(ShapeMismatch);
          }
          canvas := Add(canvas, xParam);
          canvases := canvases + [canvas];
          ghost var m := StepModules(None, None, core.value, prior, upsampler);
          assert Lookup(Net(), mode, t, false) == Success(m);
          ghost var s0 := State(old_hGen, old_cGen, hEnc, cEnc, old_canvas);
          assert Latent(mode, m, s0, rng, t) == z;
          assert EncoderNext(Net(), mode, m, s0, t) == (hEnc, cEnc);
          assert GeneratorNext(Net(), m, s0, z, t) == (hGen, cGen);
          assert Advance(Net(), mode, rng, t, m, Progress(s0, [], old_canvases)) == Progress(State(hGen, cGen, hEnc, cEnc, canvas), [], canvases);
        }
        t := t + 1;
      }
      if xParams.None? {
        return Failure(UnboundLocal);
      }
      r := Success(Unrolled([], xParams.value.0, xParams.value.1, canvases));
    }
  }
}
