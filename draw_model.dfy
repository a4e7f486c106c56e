/**
 * The step-unrolled model of `model.py`, the one the training script
 * builds: generator cores and priors with one observation head, inference
 * cores and posteriors with one image downsampler, the step-to-module
 * resolvers, and the two loops that draw an image from the prior
 * (`generate_image`) and reconstruct a query image through the posterior
 * (`reconstruct_image`).
 */
module DrawModel {
  import opened Tensors
  import opened Snapshots

  datatype HyperParameters = HyperParameters(
    generationSteps: nat,
    generatorShareCore: bool,
    generatorSharePrior: bool,
    inferenceShareCore: bool,
    inferenceSharePosterior: bool,
    channelsChz: nat,
    chrzSize: seq<nat>,
    generatorChannelsU: nat,
    imageSize: seq<nat>)

  /** Number of modules one construction loop builds: one when the role is shared, one per step otherwise. */
  function ModuleCount(shared: bool, steps: nat): nat
  {
    if shared then 1 else steps
  }

  /** The modules of a built model, in the fields `__init__` assigns. */
  datatype Network = Network(
    hp: HyperParameters,
    generationCores: seq<Link>,
    generationPriors: seq<Link>,
    generationObservation: Link,
    inferenceCores: seq<Link>,
    inferencePosteriors: seq<Link>,
    inferenceDownsampler: Link,
    parameters: seq<Link>)
  {
    function GenerationCore(l: nat): Option<Link>
    {
      Resolve(generationCores, hp.generatorShareCore, l)
    }

    function GenerationPrior(l: nat): Option<Link>
    {
      Resolve(generationPriors, hp.generatorSharePrior, l)
    }

    function InferenceCore(l: nat): Option<Link>
    {
      Resolve(inferenceCores, hp.inferenceShareCore, l)
    }

    function InferencePosterior(l: nat): Option<Link>
    {
      Resolve(inferencePosteriors, hp.inferenceSharePosterior, l)
    }
  }

  ghost predicate AllRole(links: seq<Link>, role: Role)
  {
    forall k :: 0 <= k < |links| ==> links[k].role == role
  }

  /** The shape of a network as `build_generation_network` and `build_inference_network` leave it. */
  ghost predicate WellBuilt(net: Network)
  {
    var hp := net.hp;
    var steps := hp.generationSteps;
    && |net.generationCores| == ModuleCount(hp.generatorShareCore, steps)
    && |net.generationPriors| == ModuleCount(hp.generatorSharePrior, steps)
    && |net.inferenceCores| == ModuleCount(hp.inferenceShareCore, steps)
    && |net.inferencePosteriors| == ModuleCount(hp.inferenceSharePosterior, steps)
    && AllRole(net.generationCores, GenerationCore)
    && AllRole(net.generationPriors, GenerationPrior)
    && net.generationObservation.role == GenerationObservation
    && AllRole(net.inferenceCores, InferenceCore)
    && AllRole(net.inferencePosteriors, InferencePosterior)
    && net.inferenceDownsampler.role == InferenceDownsampler
  }

  /** The parameter list holds every module once, in the order the construction passes append them. */
  ghost predicate ParametersInOrder(net: Network)
  {
    && net.parameters == net.generationCores + net.generationPriors + [net.generationObservation]
                         + net.inferenceCores + net.inferencePosteriors + [net.inferenceDownsampler]
    && Indexed(net.parameters)
  }

  /** The construction loops, run in order on an empty parameter list, leave a well-built network. */
  lemma BuiltNetworkWellBuilt(net: Network)
    requires |net.generationCores| == ModuleCount(net.hp.generatorShareCore, net.hp.generationSteps)
    requires |net.generationPriors| == ModuleCount(net.hp.generatorSharePrior, net.hp.generationSteps)
    requires |net.inferenceCores| == ModuleCount(net.hp.inferenceShareCore, net.hp.generationSteps)
    requires |net.inferencePosteriors| == ModuleCount(net.hp.inferenceSharePosterior, net.hp.generationSteps)
    requires AllRole(net.generationCores, GenerationCore) && AllRole(net.generationPriors, GenerationPrior)
    requires net.generationObservation.role == GenerationObservation
    requires AllRole(net.inferenceCores, InferenceCore) && AllRole(net.inferencePosteriors, InferencePosterior)
    requires net.inferenceDownsampler.role == InferenceDownsampler
    requires net.parameters == [] + net.generationCores + net.generationPriors + [net.generationObservation]
                               + net.inferenceCores + net.inferencePosteriors + [net.inferenceDownsampler]
    requires Indexed(net.parameters)
    ensures WellBuilt(net) && ParametersInOrder(net)
  {
    assert [] + net.generationCores == net.generationCores;
  }

  // ---------------------------------------------------------------------
  // The two loops, as a specification
  // ---------------------------------------------------------------------

  /** The recurrent variables: generator hidden, cell and canvas state, inference hidden and cell state. */
  datatype DrawState = DrawState(hGen: Tensor, cGen: Tensor, u: Tensor, hEnc: Tensor, cEnc: Tensor)

  /**
   * `generate_initial_state`: zero hidden and cell states of `chrzSize`, a
   * zero canvas of `generatorChannelsU` channels at image size.
   */
  function InitialState(hp: HyperParameters, batch: nat): (s: DrawState)
    ensures s.hGen == s.cGen == s.hEnc == s.cEnc == Zeros([batch, hp.channelsChz] + hp.chrzSize)
    ensures s.u == Zeros([batch, hp.generatorChannelsU] + hp.imageSize)
  {
    var hidden := Zeros([batch, hp.channelsChz] + hp.chrzSize);
    DrawState(hidden, hidden, Zeros([batch, hp.generatorChannelsU] + hp.imageSize), hidden, hidden)
  }

  /** `sample_z`: a draw around the head's mean and log-variance, both computed from `h`. */
  function SampleZ(head: Link, h: Tensor, rng: nat, l: nat): Tensor
  {
    Sample(Call(head, MeanZ, [h]), Call(head, LnVarZ, [h]), rng, l)
  }

  /** The generator core's three outputs on the step's latent, the viewpoints and the representation. */
  function GeneratorNext(core: Link, s: DrawState, z: Tensor, v: Tensor, r: Tensor): (Tensor, Tensor, Tensor)
  {
    var args := [s.hGen, s.cGen, s.u, z, v, r];
    (Call(core, Forward(H, None), args), Call(core, Forward(C, None), args), Call(core, Forward(U, None), args))
  }

  /** One step of `generate_image`: the prior draws on the current `hGen`, then the generator state moves on. */
  function GenerateStep(net: Network, v: Tensor, r: Tensor, rng: nat, l: nat, s: DrawState): DrawState
    requires WellBuilt(net) && l < net.hp.generationSteps
  {
    ResolversDefined(net, l);
    var z := SampleZ(net.GenerationPrior(l).value, s.hGen, rng, l);
    var (h, c, u) := GeneratorNext(net.GenerationCore(l).value, s, z, v, r);
    s.(hGen := h, cGen := c, u := u)
  }

  /** The state after the first `l` steps of `generate_image`. */
  function Generated(net: Network, batch: nat, v: Tensor, r: Tensor, rng: nat, l: nat): DrawState
    requires WellBuilt(net) && l <= net.hp.generationSteps
  {
    if l == 0 then InitialState(net.hp, batch)
    else GenerateStep(net, v, r, rng, l - 1, Generated(net, batch, v, r, rng, l - 1))
  }

  /**
   * One step of `reconstruct_image`: the inference core moves on, the
   * posterior draws on the inference state from before that move, the
   * generator core moves on, and all five variables are replaced.
   */
  function ReconstructStep(net: Network, xq: Tensor, v: Tensor, r: Tensor, rng: nat, l: nat, s: DrawState): DrawState
    requires WellBuilt(net) && l < net.hp.generationSteps
  {
    ResolversDefined(net, l);
    var encoder := net.InferenceCore(l).value;
    var encoderArgs := [s.hGen, s.hEnc, s.cEnc, xq, v, r];
    var z := SampleZ(net.InferencePosterior(l).value, s.hEnc, rng, l);
    var (h, c, u) := GeneratorNext(net.GenerationCore(l).value, s, z, v, r);
    DrawState(h, c, u, Call(encoder, Forward(H, None), encoderArgs), Call(encoder, Forward(C, None), encoderArgs))
  }

  /** The image downsampled once, before the loop of `reconstruct_image`. */
  function DownsampledQuery(net: Network, x: Tensor): Tensor
  {
    Call(net.inferenceDownsampler, Downsample, [x])
  }

  /** The state after the first `l` steps of `reconstruct_image` on query image `x`. */
  function Reconstructed(net: Network, batch: nat, x: Tensor, v: Tensor, r: Tensor, rng: nat, l: nat): DrawState
    requires WellBuilt(net) && l <= net.hp.generationSteps
  {
    if l == 0 then InitialState(net.hp, batch)
    else ReconstructStep(net, DownsampledQuery(net, x), v, r, rng, l - 1, Reconstructed(net, batch, x, v, r, rng, l - 1))
  }

  /** The observation head's mean on a final canvas. */
  function ObservedMean(net: Network, u: Tensor): Tensor
  {
    Call(net.generationObservation, MeanX, [u])
  }

  /** Every resolver of a well-built network yields a module at a step below `generationSteps`. */
  lemma ResolversDefined(net: Network, l: nat)
    requires WellBuilt(net) && l < net.hp.generationSteps
    ensures net.GenerationCore(l).Some? && net.GenerationPrior(l).Some?
    ensures net.InferenceCore(l).Some? && net.InferencePosterior(l).Some?
  {
    ResolverInBounds(net, l);
  }

  /** Every resolver of a well-built network is in bounds at a step below `generationSteps`. */
  lemma ResolverInBounds(net: Network, l: nat)
    requires WellBuilt(net) && l < net.hp.generationSteps
    ensures net.GenerationCore(l) == Some(net.generationCores[if net.hp.generatorShareCore then 0 else l])
    ensures net.GenerationPrior(l) == Some(net.generationPriors[if net.hp.generatorSharePrior then 0 else l])
    ensures net.InferenceCore(l) == Some(net.inferenceCores[if net.hp.inferenceShareCore then 0 else l])
    ensures net.InferencePosterior(l) == Some(net.inferencePosteriors[if net.hp.inferenceSharePosterior then 0 else l])
  {
    var hp := net.hp;
    ResolveInBounds(net.generationCores, hp.generatorShareCore, hp.generationSteps, l);
    ResolveInBounds(net.generationPriors, hp.generatorSharePrior, hp.generationSteps, l);
    ResolveInBounds(net.inferenceCores, hp.inferenceShareCore, hp.generationSteps, l);
    ResolveInBounds(net.inferencePosteriors, hp.inferenceSharePosterior, hp.generationSteps, l);
  }

  // ---------------------------------------------------------------------
  // The model object
  // ---------------------------------------------------------------------

  class Model {
    const hp: HyperParameters
    var generationCores: seq<Link>
    var generationPriors: seq<Link>
    var generationObservation: Link
    var inferenceCores: seq<Link>
    var inferencePosteriors: seq<Link>
    var inferenceDownsampler: Link
    /** The `ChainList` every module is appended to, in construction order. */
    var parameters: seq<Link>
    var weights: Weights

    function Net(): Network
      reads this
    {
      Network(hp, generationCores, generationPriors, generationObservation,
              inferenceCores, inferencePosteriors, inferenceDownsampler, parameters)
    }

    ghost predicate Valid()
      reads this
    {
      WellBuilt(Net())
    }

    constructor (hyperparams: HyperParameters, snapshotDirectory: Option<string>, snapshot: SnapshotFile)
      ensures Valid() && ParametersInOrder(Net()) && hp == hyperparams
      ensures weights == RestoreWeights(snapshotDirectory, snapshot)
    {
      hp := hyperparams;
      parameters := [];
      new;
      var built := BuildNetwork();
      Install(built);
      weights := RestoreWeights(snapshotDirectory, snapshot);
    }

    /** Assign the built modules to the model's fields. */
    method Install(net: Network)
      requires net.hp == hp
      modifies this
      ensures Net() == net && weights == old(weights)
    {
      generationCores, generationPriors, generationObservation := net.generationCores, net.generationPriors, net.generationObservation;
      inferenceCores, inferencePosteriors, inferenceDownsampler := net.inferenceCores, net.inferencePosteriors, net.inferenceDownsampler;
      parameters := net.parameters;
    }

    /** Both construction passes on an empty parameter list; the modules they build, as a value. */
    method BuildNetwork() returns (net: Network)
      requires parameters == []
      modifies this`parameters
      ensures WellBuilt(net) && ParametersInOrder(net) && net.hp == hp && net.parameters == parameters
    {
      var cores, priors, observation := BuildGenerationNetwork();
      var infCores, posteriors, downsampler := BuildInferenceNetwork();
      net := Network(hp, cores, priors, observation, infCores, posteriors, downsampler, parameters);
      BuiltNetworkWellBuilt(net);
    }

    /** One construction loop: append `n` fresh modules of one role to `parameters`. */
    method AppendModules(role: Role, n: nat) returns (links: seq<Link>)
      requires Indexed(parameters)
      modifies this`parameters
      ensures links == Links(role, old(|parameters|), n)
      ensures parameters == old(parameters) + links
      ensures Indexed(parameters)
    {
      links := [];
      var i := 0;
      while i < n
        invariant 0 <= i <= n
        invariant links == Links(role, old(|parameters|), i)
        invariant parameters == old(parameters) + links
      {
        var created := Link(role, |parameters|);
        links := links + [created];
        parameters := parameters + [created];
        i := i + 1;
      }
      IndexedAppend(old(parameters), role, n);
    }

    method BuildGenerationNetwork() returns (cores: seq<Link>, priors: seq<Link>, observation: Link)
      requires Indexed(parameters)
      modifies this`parameters
      ensures |cores| == ModuleCount(hp.generatorShareCore, hp.generationSteps) && AllRole(cores, GenerationCore)
      ensures |priors| == ModuleCount(hp.generatorSharePrior, hp.generationSteps) && AllRole(priors, GenerationPrior)
      ensures observation.role == GenerationObservation
      ensures parameters == old(parameters) + cores + priors + [observation]
      ensures Indexed(parameters)
    {
      cores := AppendModules(GenerationCore, ModuleCount(hp.generatorShareCore, hp.generationSteps));
      priors := AppendModules(GenerationPrior, ModuleCount(hp.generatorSharePrior, hp.generationSteps));
      var observations := AppendModules(GenerationObservation, 1);
      observation := observations[0];
    }

    method BuildInferenceNetwork() returns (cores: seq<Link>, posteriors: seq<Link>, downsampler: Link)
      requires Indexed(parameters)
      modifies this`parameters
      ensures |cores| == ModuleCount(hp.inferenceShareCore, hp.generationSteps) && AllRole(cores, InferenceCore)
      ensures |posteriors| == ModuleCount(hp.inferenceSharePosterior, hp.generationSteps)
      ensures AllRole(posteriors, InferencePosterior)
      ensures downsampler.role == InferenceDownsampler
      ensures parameters == old(parameters) + cores + posteriors + [downsampler]
      ensures Indexed(parameters)
    {
      cores := AppendModules(InferenceCore, ModuleCount(hp.inferenceShareCore, hp.generationSteps));
      posteriors := AppendModules(InferencePosterior, ModuleCount(hp.inferenceSharePosterior, hp.generationSteps));
      var downsamplers := AppendModules(InferenceDownsampler, 1);
      downsampler := downsamplers[0];
    }

    /**
     * `generate_image`: `generationSteps` prior steps from the zero state,
     * then the observation head's mean on the final canvas.
     */
    method GenerateImage(v: Tensor, r: Tensor, batch: nat, rng: nat) returns (x: Tensor)
      requires Valid()
      ensures x == ObservedMean(Net(), Generated(Net(), batch, v, r, rng, hp.generationSteps).u)
    {
      var net := Net();
      var initial := InitialState(hp, batch);
      ghost var hEnc, cEnc := initial.hEnc, initial.cEnc;
      var hGen, cGen, u := initial.hGen, initial.cGen, initial.u;
      var l := 0;
      while l < hp.generationSteps
        invariant 0 <= l <= net.hp.generationSteps
        invariant Generated(net, batch, v, r, rng, l) == DrawState(hGen, cGen, u, hEnc, cEnc)
      {
        ghost var before := DrawState(hGen, cGen, u, hEnc, cEnc);
        ResolversDefined(net, l);
        var core := net.GenerationCore(l).value;
        var prior := net.GenerationPrior(l).value;
        var z := SampleZ(prior, hGen, rng, l);
        var args := [hGen, cGen, u, z, v, r];
        hGen, cGen, u := Call(core, Forward(H, None), args), Call(core, Forward(C, None), args),
                         Call(core, Forward(U, None), args);
        assert GenerateStep(net, v, r, rng, l, before) == DrawState(hGen, cGen, u, hEnc, cEnc);
        l := l + 1;
      }
      x := Call(generationObservation, MeanX, [u]);
    }

    /**
     * `reconstruct_image`: the query image is downsampled once, then
     * `generationSteps` posterior steps run from the zero state, and the
     * observation head's mean is taken on the final canvas.
     */
    method ReconstructImage(queryImages: Tensor, v: Tensor, r: Tensor, batch: nat, rng: nat) returns (x: Tensor)
      requires Valid()
      ensures x == ObservedMean(Net(), Reconstructed(Net(), batch, queryImages, v, r, rng, hp.generationSteps).u)
    {
      var net := Net();
      var initial := InitialState(hp, batch);
      var hEnc, cEnc, hGen, cGen, u := initial.hEnc, initial.cEnc, initial.hGen, initial.cGen, initial.u;
      var xq := Call(inferenceDownsampler, Downsample, [queryImages]);
      assert xq == DownsampledQuery(net, queryImages);
      var l := 0;
      while l < hp.generationSteps
        invariant 0 <= l <= net.hp.generationSteps
        invariant Reconstructed(net, batch, queryImages, v, r, rng, l) == DrawState(hGen, cGen, u, hEnc, cEnc)
      {
        ghost var before := DrawState(hGen, cGen, u, hEnc, cEnc);
        ResolversDefined(net, l);
        var encoder := net.InferenceCore(l).value;
        var posterior := net.InferencePosterior(l).value;
        var core := net.GenerationCore(l).value;
        var encoderArgs := [hGen, hEnc, cEnc, xq, v, r];
        var hNextEnc, cNextEnc := Call(encoder, Forward(H, None), encoderArgs), Call(encoder, Forward(C, None), encoderArgs);
        var z := SampleZ(posterior, hEnc, rng, l);
        var args := [hGen, cGen, u, z, v, r];
        var hNextGen, cNextGen, uNext := Call(core, Forward(H, None), args), Call(core, Forward(C, None), args),
                                         Call(core, Forward(U, None), args);
        hGen, cGen, u, hEnc, cEnc := hNextGen, cNextGen, uNext, hNextEnc, cNextEnc;
        assert ReconstructStep(net, xq, v, r, rng, l, before) == DrawState(hGen, cGen, u, hEnc, cEnc);
        l := l + 1;
      }
      x := Call(generationObservation, MeanX, [u]);
    }
  }
}
