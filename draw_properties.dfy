/**
 * What the two loops of `model.py` guarantee: drawing from the prior
 * involves no inference module, and each reconstruction step draws its
 * latent from the inference state as it was before that step's inference
 * update, on an image that was downsampled once.
 */
module DrawProperties {
  import opened Tensors
  import opened DrawModel

  /** A call on arguments free of inference modules, by a module outside the inference network. */
  lemma CallWithoutInference(l: Link, op: Op, args: seq<Tensor>)
    requires !InferenceRole(l.role)
    requires forall a | a in args :: !UsesInference(a)
    ensures !UsesInference(Call(l, op, args))
  {
    SomeUsesInferenceExists(args);
  }

  /** A resolver over a list of one role yields a module of that role. */
  lemma ResolverRole(modules: seq<Link>, shared: bool, l: nat, role: Role)
    requires AllRole(modules, role) && Resolve(modules, shared, l).Some?
    ensures Resolve(modules, shared, l).value.role == role
  {
  }

  /**
   * Every generator state `generate_image` reaches is free of inference
   * modules when the viewpoints and the representation are.
   */
  lemma {:induction false} GeneratedWithoutInference(net: Network, batch: nat, v: Tensor, r: Tensor, rng: nat, l: nat)
    requires WellBuilt(net) && l <= net.hp.generationSteps
    requires !UsesInference(v) && !UsesInference(r)
    ensures var s := Generated(net, batch, v, r, rng, l);
            !UsesInference(s.hGen) && !UsesInference(s.cGen) && !UsesInference(s.u)
  {
    if l > 0 {
      GeneratedWithoutInference(net, batch, v, r, rng, l - 1);
      NextGeneratedWithoutInference(net, batch, v, r, rng, l - 1);
    }
  }

  /** The state after step `l` of `generate_image` is free of inference modules when the state before it is. */
  lemma NextGeneratedWithoutInference(net: Network, batch: nat, v: Tensor, r: Tensor, rng: nat, l: nat)
    requires WellBuilt(net) && l < net.hp.generationSteps
    requires !UsesInference(v) && !UsesInference(r)
    requires var s := Generated(net, batch, v, r, rng, l);
             !UsesInference(s.hGen) && !UsesInference(s.cGen) && !UsesInference(s.u)
    ensures var next := Generated(net, batch, v, r, rng, l + 1);
            !UsesInference(next.hGen) && !UsesInference(next.cGen) && !UsesInference(next.u)
  {
    GenerateStepWithoutInference(net, v, r, rng, l, Generated(net, batch, v, r, rng, l));
  }

  /** One step of `generate_image` on a state free of inference modules keeps it so. */
  lemma GenerateStepWithoutInference(net: Network, v: Tensor, r: Tensor, rng: nat, l: nat, s: DrawState)
    requires WellBuilt(net) && l < net.hp.generationSteps
    requires !UsesInference(v) && !UsesInference(r)
    requires !UsesInference(s.hGen) && !UsesInference(s.cGen) && !UsesInference(s.u)
    ensures var next := GenerateStep(net, v, r, rng, l, s);
            !UsesInference(next.hGen) && !UsesInference(next.cGen) && !UsesInference(next.u)
  {
    ResolversDefined(net, l);
    var core := net.GenerationCore(l).value;
    var prior := net.GenerationPrior(l).value;
    ResolverRole(net.generationCores, net.hp.generatorShareCore, l, GenerationCore);
    ResolverRole(net.generationPriors, net.hp.generatorSharePrior, l, GenerationPrior);
    CallWithoutInference(prior, MeanZ, [s.hGen]);
    CallWithoutInference(prior, LnVarZ, [s.hGen]);
    var z := SampleZ(prior, s.hGen, rng, l);
    SampleWithoutInference(Call(prior, MeanZ, [s.hGen]), Call(prior, LnVarZ, [s.hGen]), rng, l);
    var args := [s.hGen, s.cGen, s.u, z, v, r];
    CallWithoutInference(core, Forward(H, None), args);
    CallWithoutInference(core, Forward(C, None), args);
    CallWithoutInference(core, Forward(U, None), args);
  }

  /** A draw around a mean and log-variance free of inference modules is free of them. */
  lemma SampleWithoutInference(mean: Tensor, lnVar: Tensor, rng: nat, l: nat)
    requires !UsesInference(mean) && !UsesInference(lnVar)
    ensures !UsesInference(Sample(mean, lnVar, rng, l))
  {
  }

  /** The image `generate_image` returns involves no inference module. */
  lemma GeneratedImageWithoutInference(net: Network, batch: nat, v: Tensor, r: Tensor, rng: nat)
    requires WellBuilt(net) && !UsesInference(v) && !UsesInference(r)
    ensures !UsesInference(ObservedMean(net, Generated(net, batch, v, r, rng, net.hp.generationSteps).u))
  {
    GeneratedWithoutInference(net, batch, v, r, rng, net.hp.generationSteps);
    CallWithoutInference(net.generationObservation, MeanX, [Generated(net, batch, v, r, rng, net.hp.generationSteps).u]);
  }

  /**
   * In `generate_image` the prior of step `l` draws from the generator hidden
   * state from before that step's update, and the generator core then moves
   * on from that same state; that state is the zero tensor before the first
   * step and the previous step's generator core output afterwards.
   */
  lemma GenerateReadsPreUpdateState(net: Network, batch: nat, v: Tensor, r: Tensor, rng: nat, l: nat)
    requires WellBuilt(net) && l < net.hp.generationSteps
    ensures net.GenerationCore(l).Some? && net.GenerationPrior(l).Some?
    ensures var s := Generated(net, batch, v, r, rng, l);
            var next := Generated(net, batch, v, r, rng, l + 1);
            var args := [s.hGen, s.cGen, s.u, SampleZ(net.GenerationPrior(l).value, s.hGen, rng, l), v, r];
            && next.hGen == Call(net.GenerationCore(l).value, Forward(H, None), args)
            && next.cGen == Call(net.GenerationCore(l).value, Forward(C, None), args)
            && next.u == Call(net.GenerationCore(l).value, Forward(U, None), args)
            && (l == 0 ==> s.hGen == Zeros([batch, net.hp.channelsChz] + net.hp.chrzSize))
            && (l > 0 ==> s.hGen.Call? && s.hGen.link == net.GenerationCore(l - 1).value
                          && s.hGen.args[0] == Generated(net, batch, v, r, rng, l - 1).hGen)
  {
    GenerateStepReads(net, v, r, rng, l, Generated(net, batch, v, r, rng, l));
    if l > 0 {
      GeneratedGeneratorState(net, batch, v, r, rng, l);
    }
  }

  /** After step `l - 1` of `generate_image`, the generator state is the generator core's output on the state before it. */
  lemma GeneratedGeneratorState(net: Network, batch: nat, v: Tensor, r: Tensor, rng: nat, l: nat)
    requires WellBuilt(net) && 0 < l <= net.hp.generationSteps
    ensures net.GenerationCore(l - 1).Some?
    ensures var hGen := Generated(net, batch, v, r, rng, l).hGen;
            hGen.Call? && hGen.link == net.GenerationCore(l - 1).value
            && hGen.args[0] == Generated(net, batch, v, r, rng, l - 1).hGen
  {
    GenerateStepReads(net, v, r, rng, l - 1, Generated(net, batch, v, r, rng, l - 1));
  }

  /** One step of `generate_image` on state `s`: what the prior and the generator core are given. */
  lemma GenerateStepReads(net: Network, v: Tensor, r: Tensor, rng: nat, l: nat, s: DrawState)
    requires WellBuilt(net) && l < net.hp.generationSteps
    ensures net.GenerationCore(l).Some? && net.GenerationPrior(l).Some?
    ensures var next := GenerateStep(net, v, r, rng, l, s);
            var args := [s.hGen, s.cGen, s.u, SampleZ(net.GenerationPrior(l).value, s.hGen, rng, l), v, r];
            && next.hGen == Call(net.GenerationCore(l).value, Forward(H, None), args)
            && next.cGen == Call(net.GenerationCore(l).value, Forward(C, None), args)
            && next.u == Call(net.GenerationCore(l).value, Forward(U, None), args)
            && next.hEnc == s.hEnc && next.cEnc == s.cEnc
            && next.hGen.Call? && next.hGen.link == net.GenerationCore(l).value && next.hGen.args[0] == s.hGen
  {
    ResolversDefined(net, l);
  }

  /**
   * Step `l` of `reconstruct_image` draws its latent from the posterior on
   * the inference state from before the step; that state is the zero state
   * on step 0 and the previous step's inference-core output afterwards, and
   * the inference core always receives the query image downsampled once.
   * All five state variables are replaced by the two cores' outputs.
   */
  lemma ReconstructReadsPreUpdateState(net: Network, batch: nat, x: Tensor, v: Tensor, r: Tensor, rng: nat, l: nat)
    requires WellBuilt(net) && l < net.hp.generationSteps
    ensures net.InferenceCore(l).Some? && net.InferencePosterior(l).Some? && net.GenerationCore(l).Some?
    ensures var s := Reconstructed(net, batch, x, v, r, rng, l);
            var next := Reconstructed(net, batch, x, v, r, rng, l + 1);
            var genArgs := [s.hGen, s.cGen, s.u, SampleZ(net.InferencePosterior(l).value, s.hEnc, rng, l), v, r];
            var encArgs := [s.hGen, s.hEnc, s.cEnc, DownsampledQuery(net, x), v, r];
            && next.hGen == Call(net.GenerationCore(l).value, Forward(H, None), genArgs)
            && next.cGen == Call(net.GenerationCore(l).value, Forward(C, None), genArgs)
            && next.u == Call(net.GenerationCore(l).value, Forward(U, None), genArgs)
            && next.hEnc == Call(net.InferenceCore(l).value, Forward(H, None), encArgs)
            && next.cEnc == Call(net.InferenceCore(l).value, Forward(C, None), encArgs)
            && (l == 0 ==> s.hEnc == Zeros([batch, net.hp.channelsChz] + net.hp.chrzSize))
            && (l > 0 ==> s.hEnc.Call? && s.hEnc.link == net.InferenceCore(l - 1).value
                          && s.hEnc.args[3] == DownsampledQuery(net, x))
  {
    ReconstructStepReads(net, DownsampledQuery(net, x), v, r, rng, l, Reconstructed(net, batch, x, v, r, rng, l));
    if l > 0 {
      ReconstructedEncoderState(net, batch, x, v, r, rng, l);
    }
  }

  /** After step `l - 1` of `reconstruct_image`, the inference state is the inference core's output on the downsampled image. */
  lemma ReconstructedEncoderState(net: Network, batch: nat, x: Tensor, v: Tensor, r: Tensor, rng: nat, l: nat)
    requires WellBuilt(net) && 0 < l <= net.hp.generationSteps
    ensures net.InferenceCore(l - 1).Some?
    ensures var hEnc := Reconstructed(net, batch, x, v, r, rng, l).hEnc;
            hEnc.Call? && hEnc.link == net.InferenceCore(l - 1).value && hEnc.args[3] == DownsampledQuery(net, x)
  {
    ReconstructStepReads(net, DownsampledQuery(net, x), v, r, rng, l - 1, Reconstructed(net, batch, x, v, r, rng, l - 1));
  }

  /** One step of `reconstruct_image` on state `s`: what the two cores are given, and that their outputs replace all five variables. */
  lemma ReconstructStepReads(net: Network, xq: Tensor, v: Tensor, r: Tensor, rng: nat, l: nat, s: DrawState)
    requires WellBuilt(net) && l < net.hp.generationSteps
    ensures net.InferenceCore(l).Some? && net.InferencePosterior(l).Some? && net.GenerationCore(l).Some?
    ensures var next := ReconstructStep(net, xq, v, r, rng, l, s);
            var genArgs := [s.hGen, s.cGen, s.u, SampleZ(net.InferencePosterior(l).value, s.hEnc, rng, l), v, r];
            var encArgs := [s.hGen, s.hEnc, s.cEnc, xq, v, r];
            && next.hGen == Call(net.GenerationCore(l).value, Forward(H, None), genArgs)
            && next.cGen == Call(net.GenerationCore(l).value, Forward(C, None), genArgs)
            && next.u == Call(net.GenerationCore(l).value, Forward(U, None), genArgs)
            && next.hEnc == Call(net.InferenceCore(l).value, Forward(H, None), encArgs)
            && next.cEnc == Call(net.InferenceCore(l).value, Forward(C, None), encArgs)
            && next.hEnc.Call? && next.hEnc.link == net.InferenceCore(l).value && next.hEnc.args[3] == xq
  {
    ResolversDefined(net, l);
  }
}
