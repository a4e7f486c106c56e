/**
 * What the construction and the three unrolls of `models/lstm.py`
 * guarantee: resolvers stay in bounds for every step of a well-built
 * network, the unrolls succeed and collect one latent tuple per step and one
 * canvas per non-final step, the heads read the state from before the
 * step's core updates, the canvas accumulates the regular upsamplers'
 * outputs, and the three modes relate to each other as their loops suggest.
 */
module LstmProperties {
  import opened Tensors
  import opened LstmModel

  // ---------------------------------------------------------------------
  // Resolvers
  // ---------------------------------------------------------------------

  /** Every resolver of a well-built network is in bounds at a step below `generationSteps`. */
  lemma ResolversInBounds(net: Network, t: nat)
    requires WellBuilt(net) && t < net.hp.generationSteps
    ensures net.GenerationCore(t) == Some(net.generationCores[if net.hp.generatorShareCore then 0 else t])
    ensures net.GenerationPrior(t) == Some(net.generationPriors[if net.hp.generatorSharePrior then 0 else t])
    ensures net.InferenceCore(t) == Some(net.inferenceCores[if net.hp.inferenceShareCore then 0 else t])
    ensures net.InferencePosterior(t) == Some(net.inferencePosteriors[if net.hp.inferenceSharePosterior then 0 else t])
  {
    var hp := net.hp;
    ResolveInBounds(net.generationCores, hp.generatorShareCore, hp.generationSteps, t);
    ResolveInBounds(net.generationPriors, hp.generatorSharePrior, hp.generationSteps, t);
    ResolveInBounds(net.inferenceCores, hp.inferenceShareCore, hp.generationSteps, t);
    ResolveInBounds(net.inferencePosteriors, hp.inferenceSharePosterior, hp.generationSteps, t);
  }

  /**
   * On every non-final step of a full-length unroll the upsampler resolver
   * is in bounds and yields a regular 3-channel upsampler, never the final one.
   */
  lemma RegularUpsamplerNeverFinal(net: Network, t: nat)
    requires WellBuilt(net) && (t + 1 < net.hp.generationSteps || net.hp.generatorShareUpsampler)
    ensures net.GenerationUpsampler(t).Some?
    ensures net.GenerationUpsampler(t).value.role == GenerationUpsampler
    ensures net.GenerationUpsampler(t).value != net.generationFinalUpsampler
    ensures UpsampledChannels(net.GenerationUpsampler(t).value) == 3
  {
    var k := if net.hp.generatorShareUpsampler then 0 else t;
    assert net.generationUpsamplers[k] == net.generationUpsamplers[..RegularUpsamplerCount(net.hp)][k];
  }

  /** Without upsampler sharing, index `generationSteps - 1` of the upsampler list is the 6-channel final upsampler. */
  lemma LastUpsamplerIsFinal(net: Network)
    requires WellBuilt(net) && !net.hp.generatorShareUpsampler && net.hp.generationSteps > 0
    ensures net.GenerationUpsampler(net.hp.generationSteps - 1) == Some(net.generationFinalUpsampler)
    ensures UpsampledChannels(net.generationFinalUpsampler) == 6
  {
  }

  /** Every lookup a full-length unroll makes on a well-built network succeeds. */
  lemma LookupSucceeds(net: Network, mode: Mode, t: nat, isFinal: bool)
    requires WellBuilt(net) && t < net.hp.generationSteps
    requires !isFinal ==> t + 1 < net.hp.generationSteps
    ensures Lookup(net, mode, t, isFinal).Success?
  {
    ResolversInBounds(net, t);
    if !isFinal {
      RegularUpsamplerNeverFinal(net, t);
    }
  }

  // ---------------------------------------------------------------------
  // Success and the lengths of what an unroll returns
  // ---------------------------------------------------------------------

  /** A prefix whose every step looks up its modules successfully succeeds. */
  lemma {:induction false} PrefixSucceeds(net: Network, mode: Mode, batch: nat, rng: nat, t: nat)
    requires forall k :: 0 <= k < t ==> Lookup(net, mode, k, false).Success?
    ensures Prefix(net, mode, batch, rng, t).Success?
  {
    if t > 0 {
      PrefixSucceeds(net, mode, batch, rng, t - 1);
    }
  }

  /** The prefix before the final step of an in-range unroll succeeds. */
  lemma InRangePrefixSucceeds(net: Network, mode: Mode, batch: nat, rng: nat, limit: nat)
    requires WellBuilt(net) && 1 <= limit <= net.hp.generationSteps
    ensures Prefix(net, mode, batch, rng, limit - 1).Success?
  {
    forall k | 0 <= k < limit - 1
      ensures Lookup(net, mode, k, false).Success?
    {
      LookupSucceeds(net, mode, k, false);
    }
    PrefixSucceeds(net, mode, batch, rng, limit - 1);
  }

  /**
   * An unroll of between 1 and `generationSteps` steps on a well-built
   * network succeeds, with one latent tuple per step (training pass only)
   * and one canvas per non-final step.
   */
  lemma UnrollSucceeds(net: Network, mode: Mode, batch: nat, rng: nat, limit: nat)
    requires WellBuilt(net) && 1 <= limit <= net.hp.generationSteps
    ensures Unroll(net, mode, batch, rng, limit).Success?
    ensures |Unroll(net, mode, batch, rng, limit).value.canvases| == limit - 1
    ensures |Unroll(net, mode, batch, rng, limit).value.params| == if mode.Training? then limit else 0
  {
    InRangePrefixSucceeds(net, mode, batch, rng, limit);
    LookupSucceeds(net, mode, limit - 1, true);
  }

  /** A model with no generation steps never binds `mu_x`. */
  lemma NoStepsUnbound(net: Network, mode: Mode, batch: nat, rng: nat)
    requires net.hp.generationSteps == 0
    ensures Unroll(net, mode, batch, rng, net.hp.generationSteps) == Failure(UnboundLocal)
  {
  }

  /**
   * A step trace longer than `generationSteps` without upsampler sharing
   * reaches step `generationSteps - 1` as a non-final step, resolves the
   * 6-channel final upsampler there and fails adding it to the 3-channel canvas.
   */
  lemma OverlongTraceMismatch(net: Network, x: Tensor, zeroVariance: bool, batch: nat, rng: nat, limit: nat)
    requires WellBuilt(net) && !net.hp.generatorShareUpsampler
    requires 1 <= net.hp.generationSteps < limit
    ensures Unroll(net, Trace(x, zeroVariance), batch, rng, limit) == Failure(ShapeMismatch)
  {
    var mode, steps := Trace(x, zeroVariance), net.hp.generationSteps;
    InRangePrefixSucceeds(net, mode, batch, rng, steps);
    ResolversInBounds(net, steps - 1);
    LastUpsamplerIsFinal(net);
    assert Lookup(net, mode, steps - 1, false) == Failure(ShapeMismatch);
    StepFailure(net, mode, batch, rng, steps - 1, limit, ShapeMismatch);
  }

  /**
   * With upsampler sharing, a step trace longer than `generationSteps` runs
   * step `generationSteps` and fails there with an index error unless every
   * module it consults is shared too.
   */
  lemma OverlongTraceIndexError(net: Network, x: Tensor, zeroVariance: bool, batch: nat, rng: nat, limit: nat)
    requires WellBuilt(net) && net.hp.generatorShareUpsampler
    requires !(net.hp.inferenceShareCore && net.hp.inferenceSharePosterior && net.hp.generatorShareCore)
    requires net.hp.generationSteps < limit
    ensures Unroll(net, Trace(x, zeroVariance), batch, rng, limit) == Failure(IndexError)
  {
    var mode, steps := Trace(x, zeroVariance), net.hp.generationSteps;
    forall k | 0 <= k < steps
      ensures Lookup(net, mode, k, false).Success?
    {
      ResolversInBounds(net, k);
      RegularUpsamplerNeverFinal(net, k);
    }
    PrefixSucceeds(net, mode, batch, rng, steps);
    StepFailure(net, mode, batch, rng, steps, limit, IndexError);
  }

  /** When every module the step trace consults is shared, it succeeds for any positive step limit. */
  lemma SharedTraceAnyLength(net: Network, x: Tensor, zeroVariance: bool, batch: nat, rng: nat, limit: nat)
    requires WellBuilt(net) && net.hp.generatorShareUpsampler && net.hp.generatorShareCore
    requires net.hp.inferenceShareCore && net.hp.inferenceSharePosterior
    requires 1 <= limit
    ensures Unroll(net, Trace(x, zeroVariance), batch, rng, limit).Success?
    ensures |Unroll(net, Trace(x, zeroVariance), batch, rng, limit).value.canvases| == limit - 1
  {
    var mode := Trace(x, zeroVariance);
    forall k | 0 <= k < limit
      ensures Lookup(net, mode, k, false).Success? && Lookup(net, mode, k, true).Success?
    {
      RegularUpsamplerNeverFinal(net, k);
    }
    PrefixSucceeds(net, mode, batch, rng, limit - 1);
  }

  // ---------------------------------------------------------------------
  // Which state each head reads, and the canvas
  // ---------------------------------------------------------------------

  /** A prefix of a successful prefix succeeds and is its beginning. */
  lemma {:induction false} PrefixOfPrefix(net: Network, mode: Mode, batch: nat, rng: nat, k: nat, t: nat)
    requires k <= t && Prefix(net, mode, batch, rng, t).Success?
    ensures Prefix(net, mode, batch, rng, k).Success?
    ensures Prefix(net, mode, batch, rng, k).value.canvases == Prefix(net, mode, batch, rng, t).value.canvases[..k]
    ensures Prefix(net, mode, batch, rng, k).value.params
         == Prefix(net, mode, batch, rng, t).value.params[..|Prefix(net, mode, batch, rng, k).value.params|]
    decreases t
  {
    if k < t {
      PrefixOfPrefix(net, mode, batch, rng, k, t - 1);
      var p := Prefix(net, mode, batch, rng, t - 1).value;
      var q := Prefix(net, mode, batch, rng, t).value;
      var m := Lookup(net, mode, t - 1, false).value;
      assert q == Advance(net, mode, rng, t - 1, m, p);
      assert q.canvases[..t - 1] == p.canvases;
      assert q.params[..|p.params|] == p.params;
    }
  }

  /** The state after the first `k` steps of an unroll that succeeded. */
  function StateBefore(net: Network, mode: Mode, batch: nat, rng: nat, k: nat): State
    requires Prefix(net, mode, batch, rng, k).Success?
  {
    Prefix(net, mode, batch, rng, k).value.state
  }

  /** The `k`-th latent tuple of a successful training prefix is the one step `k` recorded. */
  lemma RecordedAt(net: Network, x: Tensor, batch: nat, rng: nat, k: nat, t: nat)
    requires k < t && Prefix(net, Training(x), batch, rng, t).Success?
    ensures Prefix(net, Training(x), batch, rng, k).Success? && Lookup(net, Training(x), k, false).Success?
    ensures Prefix(net, Training(x), batch, rng, t).value.params[k]
         == Recorded(Training(x), Lookup(net, Training(x), k, false).value, StateBefore(net, Training(x), batch, rng, k))[0]
  {
    var mode := Training(x);
    PrefixOfPrefix(net, mode, batch, rng, k + 1, t);
    var p := Prefix(net, mode, batch, rng, k).value;
    var q := Prefix(net, mode, batch, rng, k + 1).value;
    assert Lookup(net, mode, k, false).Success?;
    var m := Lookup(net, mode, k, false).value;
    assert q == Advance(net, mode, rng, k, m, p);
    assert q.params[k] == Recorded(mode, m, p.state)[0];
  }

  /**
   * In the training pass the `k`-th latent tuple is the posterior read on
   * the inference state and the prior read on the generator state as they
   * were before step `k`'s core updates.
   */
  lemma HeadsReadPreUpdateState(net: Network, x: Tensor, batch: nat, rng: nat, limit: nat, k: nat)
    requires Unroll(net, Training(x), batch, rng, limit).Success? && k < limit
    ensures Prefix(net, Training(x), batch, rng, k).Success?
    ensures net.InferencePosterior(k).Some? && net.GenerationPrior(k).Some?
    ensures var s := StateBefore(net, Training(x), batch, rng, k);
            Unroll(net, Training(x), batch, rng, limit).value.params[k] ==
              LatentParams(Call(net.InferencePosterior(k).value, MeanZ, [s.hEnc]),
                           Call(net.InferencePosterior(k).value, LnVarZ, [s.hEnc]),
                           Call(net.GenerationPrior(k).value, MeanZ, [s.hGen]),
                           Call(net.GenerationPrior(k).value, LnVarZ, [s.hGen]))
  {
    var mode := Training(x);
    var last := Prefix(net, mode, batch, rng, limit - 1).value;
    var final := Lookup(net, mode, limit - 1, true).value;
    var u := Unroll(net, mode, batch, rng, limit).value;
    assert u == Finish(net, mode, rng, limit - 1, final, last);
    assert u.params == last.params + Recorded(mode, final, last.state);
    if k < limit - 1 {
      RecordedAt(net, x, batch, rng, k, limit - 1);
      assert u.params[k] == last.params[k];
    } else {
      assert u.params[k] == Recorded(mode, final, last.state)[0];
    }
  }

  /**
   * The inference and generator state a step reads is the zero state on
   * step 0 and, on a later step, what the previous step's cores produced:
   * the heads lag the core updates by one step.
   */
  lemma StateIsPreviousCoreOutput(net: Network, mode: Mode, batch: nat, rng: nat, k: nat)
    requires mode.Encodes() && Prefix(net, mode, batch, rng, k).Success?
    ensures var s := StateBefore(net, mode, batch, rng, k);
            if k == 0 then s == InitialState(net.hp, batch)
            else
              && net.InferenceCore(k - 1).Some? && net.GenerationCore(k - 1).Some?
              && s.hEnc.Call? && s.hEnc.link == net.InferenceCore(k - 1).value
              && s.hEnc.op == Forward(H, BatchnormStep(net.hp.inferenceShareCore, k - 1))
              && s.hGen.Call? && s.hGen.link == net.GenerationCore(k - 1).value
              && s.hGen.op == Forward(H, BatchnormStep(net.hp.generatorShareCore, k - 1))
              && s.hEnc.args[1] == StateBefore(net, mode, batch, rng, k - 1).hEnc
              && s.hGen.args[0] == StateBefore(net, mode, batch, rng, k - 1).hGen
  {
    if k > 0 {
      var m := Lookup(net, mode, k - 1, false);
      assert m.Success?;
    }
  }

  /** `canvas` is `prev` plus the output of the regular 3-channel upsampler step `k` resolves, called on `hGen`. */
  predicate UpsampledOnto(net: Network, k: nat, prev: Tensor, canvas: Tensor, hGen: Tensor)
  {
    && canvas.Add? && canvas.left == prev
    && canvas.right.Call? && canvas.right.op == Upsample
    && net.GenerationUpsampler(k) == Some(canvas.right.link)
    && UpsampledChannels(canvas.right.link) == 3
    && canvas.right.args == [hGen]
  }

  /**
   * Canvas `k` is canvas `k - 1` (zeros before the first) plus the output
   * of the regular 3-channel upsampler step `k` resolves, called on `hGen`.
   */
  predicate Accumulated(net: Network, batch: nat, canvases: seq<Tensor>, k: nat, hGen: Tensor)
    requires k < |canvases|
  {
    UpsampledOnto(net, k, if k == 0 then Zeros([batch, 3] + net.hp.imageSize) else canvases[k - 1], canvases[k], hGen)
  }

  /** Canvas `k` accumulates the generator hidden state step `k` of the unroll produced. */
  predicate CanvasOfStep(net: Network, mode: Mode, batch: nat, rng: nat, canvases: seq<Tensor>, k: nat)
    requires k < |canvases|
  {
    && Prefix(net, mode, batch, rng, k + 1).Success?
    && Accumulated(net, batch, canvases, k, StateBefore(net, mode, batch, rng, k + 1).hGen)
  }

  /** `h` is the `H` output of step `t`'s generator core, which read the generator hidden state `hPrev`. */
  predicate GeneratorOutput(net: Network, t: nat, h: Tensor, hPrev: Tensor)
  {
    && net.GenerationCore(t).Some?
    && h.Call? && h.link == net.GenerationCore(t).value
    && h.op == Forward(H, BatchnormStep(net.hp.generatorShareCore, t))
    && |h.args| == 4 && h.args[0] == hPrev
  }

  /**
   * The canvas protocol: canvas `k` is canvas `k - 1` (zeros before the
   * first) plus a regular 3-channel upsampler's output on the generator
   * hidden state step `k` produced; `mu_x` is the first three channels of
   * the final upsampler's output plus the last canvas before the final step,
   * and `ln_var_x` the remaining channels of that same output. The final
   * upsampler reads the final step's generator core output.
   */
  lemma CanvasProtocol(net: Network, mode: Mode, batch: nat, rng: nat, limit: nat)
    requires Unroll(net, mode, batch, rng, limit).Success?
    ensures var u := Unroll(net, mode, batch, rng, limit).value;
            var zero := Zeros([batch, 3] + net.hp.imageSize);
            && (forall k :: 0 <= k < |u.canvases| ==> CanvasOfStep(net, mode, batch, rng, u.canvases, k))
            && u.lnVarX.ChannelsFrom? && u.lnVarX.bound == 3
            && u.lnVarX.x.Call? && u.lnVarX.x.link == net.generationFinalUpsampler && u.lnVarX.x.op == Upsample
            && u.muX == Add(ChannelsBefore(u.lnVarX.x, 3), if limit == 1 then zero else u.canvases[limit - 2])
            && Prefix(net, mode, batch, rng, limit - 1).Success?
            && |u.lnVarX.x.args| == 1
            && GeneratorOutput(net, limit - 1, u.lnVarX.x.args[0], StateBefore(net, mode, batch, rng, limit - 1).hGen)
  {
    var u := Unroll(net, mode, batch, rng, limit).value;
    var zero := Zeros([batch, 3] + net.hp.imageSize);
    UnrollCanvases(net, mode, batch, rng, limit);
    forall k | 0 <= k < |u.canvases|
      ensures CanvasOfStep(net, mode, batch, rng, u.canvases, k)
    {
      CanvasStep(net, mode, batch, rng, limit - 1, k);
    }
    var last := Prefix(net, mode, batch, rng, limit - 1).value;
    var final := Lookup(net, mode, limit - 1, true).value;
    assert u == Finish(net, mode, rng, limit - 1, final, last);
    if limit > 1 {
      CanvasIsState(net, mode, batch, rng, limit - 2, limit - 1);
    }
  }

  /** The last canvas of a successful prefix is its state's canvas. */
  lemma CanvasIsState(net: Network, mode: Mode, batch: nat, rng: nat, k: nat, t: nat)
    requires k < t && Prefix(net, mode, batch, rng, t).Success?
    ensures Prefix(net, mode, batch, rng, k + 1).Success?
    ensures Prefix(net, mode, batch, rng, t).value.canvases[k] == StateBefore(net, mode, batch, rng, k + 1).r
  {
    PrefixOfPrefix(net, mode, batch, rng, k + 1, t);
  }

  /** Each canvas a successful prefix collected is the previous one plus a regular upsampler's output. */
  lemma CanvasStep(net: Network, mode: Mode, batch: nat, rng: nat, t: nat, k: nat)
    requires Prefix(net, mode, batch, rng, t).Success? && k < t
    ensures k < |Prefix(net, mode, batch, rng, t).value.canvases|
    ensures CanvasOfStep(net, mode, batch, rng, Prefix(net, mode, batch, rng, t).value.canvases, k)
  {
    CanvasIsState(net, mode, batch, rng, k, t);
    if k > 0 {
      CanvasIsState(net, mode, batch, rng, k - 1, t);
    }
    PrefixCanvasStep(net, mode, batch, rng, k);
  }

  /** A successful unroll returns the canvases of the prefix before its final step. */
  lemma UnrollCanvases(net: Network, mode: Mode, batch: nat, rng: nat, limit: nat)
    requires Unroll(net, mode, batch, rng, limit).Success?
    ensures limit > 0 && Prefix(net, mode, batch, rng, limit - 1).Success?
    ensures Unroll(net, mode, batch, rng, limit).value.canvases == Prefix(net, mode, batch, rng, limit - 1).value.canvases
  {
  }

  /**
   * The canvas after `k + 1` steps is the canvas after `k` steps (zeros
   * after none) plus the output of the regular upsampler step `k` resolves,
   * called on the generator hidden state after step `k`.
   */
  lemma PrefixCanvasStep(net: Network, mode: Mode, batch: nat, rng: nat, k: nat)
    requires Prefix(net, mode, batch, rng, k + 1).Success?
    ensures Prefix(net, mode, batch, rng, k).Success?
    ensures UpsampledOnto(net, k, if k == 0 then Zeros([batch, 3] + net.hp.imageSize) else StateBefore(net, mode, batch, rng, k).r,
                          StateBefore(net, mode, batch, rng, k + 1).r, StateBefore(net, mode, batch, rng, k + 1).hGen)
  {
    assert Lookup(net, mode, k, false).Success?;
  }

  /**
   * The generator hidden state after `k + 1` steps is the `H` output of step
   * `k`'s generator core, which was fed the hidden state after `k` steps.
   */
  lemma PrefixGeneratorStep(net: Network, mode: Mode, batch: nat, rng: nat, k: nat)
    requires Prefix(net, mode, batch, rng, k + 1).Success?
    ensures Prefix(net, mode, batch, rng, k).Success?
    ensures GeneratorOutput(net, k, StateBefore(net, mode, batch, rng, k + 1).hGen, StateBefore(net, mode, batch, rng, k).hGen)
  {
    assert Lookup(net, mode, k, false).Success?;
  }

  // ---------------------------------------------------------------------
  // The three unrolls compared
  // ---------------------------------------------------------------------

  /** The step trace with sampling and the training pass go through the same states. */
  lemma {:induction false} TracePrefixAgrees(net: Network, x: Tensor, batch: nat, rng: nat, t: nat)
    requires WellBuilt(net) && t < net.hp.generationSteps
    ensures Prefix(net, Trace(x, false), batch, rng, t).Success?
    ensures Prefix(net, Training(x), batch, rng, t).Success?
    ensures Prefix(net, Trace(x, false), batch, rng, t).value.state == Prefix(net, Training(x), batch, rng, t).value.state
    ensures Prefix(net, Trace(x, false), batch, rng, t).value.canvases == Prefix(net, Training(x), batch, rng, t).value.canvases
    decreases t, 0
  {
    if t > 0 {
      TraceStepAgrees(net, x, batch, rng, t - 1);
    }
  }

  /**
   * One more non-final step of the step trace with sampling and of the
   * training pass, taken from the equal states and canvases the first `t`
   * steps reach, again gives equal states and canvases.
   */
  lemma {:induction false} TraceStepAgrees(net: Network, x: Tensor, batch: nat, rng: nat, t: nat)
    requires WellBuilt(net) && t + 1 < net.hp.generationSteps
    ensures Prefix(net, Trace(x, false), batch, rng, t + 1).Success?
    ensures Prefix(net, Training(x), batch, rng, t + 1).Success?
    ensures Prefix(net, Trace(x, false), batch, rng, t + 1).value.state == Prefix(net, Training(x), batch, rng, t + 1).value.state
    ensures Prefix(net, Trace(x, false), batch, rng, t + 1).value.canvases == Prefix(net, Training(x), batch, rng, t + 1).value.canvases
    decreases t, 1
  {
    TracePrefixAgrees(net, x, batch, rng, t);
    LookupSucceeds(net, Trace(x, false), t, false);
    LookupSucceeds(net, Training(x), t, false);
    PrefixAdvances(net, Trace(x, false), batch, rng, t);
    PrefixAdvances(net, Training(x), batch, rng, t);
    AdvanceAgrees(net, x, rng, t, Lookup(net, Trace(x, false), t, false).value, Lookup(net, Training(x), t, false).value,
                  Prefix(net, Trace(x, false), batch, rng, t).value, Prefix(net, Training(x), batch, rng, t).value);
  }

  /** A successful prefix whose next lookup succeeds moves on by one non-final step. */
  lemma PrefixAdvances(net: Network, mode: Mode, batch: nat, rng: nat, t: nat)
    requires Prefix(net, mode, batch, rng, t).Success? && Lookup(net, mode, t, false).Success?
    ensures Prefix(net, mode, batch, rng, t + 1)
            == Success(Advance(net, mode, rng, t, Lookup(net, mode, t, false).value, Prefix(net, mode, batch, rng, t).value))
  {
  }

  /**
   * With the same inference core, posterior, generator core and upsampler,
   * a non-final step of the step trace with sampling and one of the
   * training pass move equal states and canvases to equal states and canvases.
   */
  lemma AdvanceAgrees(net: Network, x: Tensor, rng: nat, t: nat, m1: StepModules, m2: StepModules, p1: Progress, p2: Progress)
    requires Fits(m1, Trace(x, false)) && Fits(m2, Training(x))
    requires m1.encoder == m2.encoder && m1.posterior == m2.posterior && m1.core == m2.core && m1.upsampler == m2.upsampler
    requires p1.state == p2.state && p1.canvases == p2.canvases
    ensures Advance(net, Trace(x, false), rng, t, m1, p1).state == Advance(net, Training(x), rng, t, m2, p2).state
    ensures Advance(net, Trace(x, false), rng, t, m1, p1).canvases == Advance(net, Training(x), rng, t, m2, p2).canvases
  {
  }

  /**
   * A step trace with sampling over `generationSteps` steps produces the
   * same canvases and observation parameters as the training pass on the
   * same image and the same random draws.
   */
  lemma TraceAgreesWithTraining(net: Network, x: Tensor, batch: nat, rng: nat)
    requires WellBuilt(net) && net.hp.generationSteps >= 1
    ensures var steps := net.hp.generationSteps;
            var traced := Unroll(net, Trace(x, false), batch, rng, steps);
            var trained := Unroll(net, Training(x), batch, rng, steps);
            && traced.Success? && trained.Success?
            && traced.value.canvases == trained.value.canvases
            && traced.value.muX == trained.value.muX
            && traced.value.lnVarX == trained.value.lnVarX
  {
    var steps := net.hp.generationSteps;
    TracePrefixAgrees(net, x, batch, rng, steps - 1);
    LookupSucceeds(net, Trace(x, false), steps - 1, true);
    LookupSucceeds(net, Training(x), steps - 1, true);
  }

  /** Without sampling noise the step trace's prefixes do not depend on the random draws. */
  lemma {:induction false} ZeroVariancePrefix(net: Network, x: Tensor, batch: nat, rng1: nat, rng2: nat, t: nat)
    ensures Prefix(net, Trace(x, true), batch, rng1, t) == Prefix(net, Trace(x, true), batch, rng2, t)
  {
    if t > 0 {
      ZeroVariancePrefix(net, x, batch, rng1, rng2, t - 1);
    }
  }

  /** With `zero_variance` the step trace is deterministic: any two random draws give the same result. */
  lemma ZeroVarianceDeterministic(net: Network, x: Tensor, batch: nat, rng1: nat, rng2: nat, limit: nat)
    ensures Unroll(net, Trace(x, true), batch, rng1, limit) == Unroll(net, Trace(x, true), batch, rng2, limit)
  {
    if limit > 0 {
      ZeroVariancePrefix(net, x, batch, rng1, rng2, limit - 1);
    }
  }

  /**
   * With `zero_variance` the latent step `k` feeds to the generator core is
   * the posterior's mean, computed from the encoder hidden state before the
   * step; no draw is involved.
   */
  lemma ZeroVarianceLatentIsPosteriorMean(net: Network, x: Tensor, batch: nat, rng: nat, k: nat)
    requires Prefix(net, Trace(x, true), batch, rng, k + 1).Success?
    ensures Prefix(net, Trace(x, true), batch, rng, k).Success?
    ensures net.InferencePosterior(k).Some?
    ensures var hNext := StateBefore(net, Trace(x, true), batch, rng, k + 1).hGen;
            var s := StateBefore(net, Trace(x, true), batch, rng, k);
            && GeneratorOutput(net, k, hNext, s.hGen)
            && hNext.args[2] == Call(net.InferencePosterior(k).value, MeanZ, [s.hEnc])
  {
    assert Lookup(net, Trace(x, true), k, false).Success?;
  }

  /**
   * Without `zero_variance` the latent step `k` feeds to the generator core
   * is a draw from the posterior's mean and log-variance, both computed from
   * the encoder hidden state before the step.
   */
  lemma TraceLatentIsPosteriorSample(net: Network, x: Tensor, batch: nat, rng: nat, k: nat)
    requires Prefix(net, Trace(x, false), batch, rng, k + 1).Success?
    ensures Prefix(net, Trace(x, false), batch, rng, k).Success?
    ensures net.InferencePosterior(k).Some?
    ensures var hNext := StateBefore(net, Trace(x, false), batch, rng, k + 1).hGen;
            var s := StateBefore(net, Trace(x, false), batch, rng, k);
            var q := net.InferencePosterior(k).value;
            && GeneratorOutput(net, k, hNext, s.hGen)
            && hNext.args[2] == Sample(Call(q, MeanZ, [s.hEnc]), Call(q, LnVarZ, [s.hEnc]), rng, k)
  {
    assert Lookup(net, Trace(x, false), k, false).Success?;
  }

  /** `t` involves no inference module and no caller-supplied image. */
  predicate Generative(t: Tensor)
  {
    !UsesInference(t) && !HasInput(t)
  }

  /** A call on generative arguments by a generation module is generative. */
  lemma GenerativeCall(l: Link, op: Op, args: seq<Tensor>)
    requires !InferenceRole(l.role)
    requires forall a | a in args :: Generative(a)
    ensures Generative(Call(l, op, args))
  {
    SomeUsesInferenceExists(args);
    SomeHasInputExists(args);
  }

  /** A draw around a generative mean and log-variance is generative. */
  lemma GenerativeSample(mean: Tensor, lnVar: Tensor, rng: nat, t: nat)
    requires Generative(mean) && Generative(lnVar)
    ensures Generative(Sample(mean, lnVar, rng, t))
  {
  }

  /** Every generator state and canvas the prior-only unroll reaches is generative. */
  lemma {:induction false} PriorPrefixGenerative(net: Network, batch: nat, rng: nat, t: nat)
    requires WellBuilt(net) && Prefix(net, PriorOnly, batch, rng, t).Success?
    ensures GenerativeProgress(Prefix(net, PriorOnly, batch, rng, t).value)
  {
    if t > 0 {
      PriorPrefixGenerative(net, batch, rng, t - 1);
      PriorStepGenerative(net, batch, rng, t - 1);
    }
  }

  /** The generator state and every canvas of `p` are generative. */
  predicate GenerativeProgress(p: Progress)
  {
    && Generative(p.state.hGen) && Generative(p.state.cGen) && Generative(p.state.r)
    && forall k | 0 <= k < |p.canvases| :: Generative(p.canvases[k])
  }

  /** One more step of the prior-only unroll from a generative prefix leaves a generative prefix. */
  lemma PriorStepGenerative(net: Network, batch: nat, rng: nat, t: nat)
    requires WellBuilt(net) && Prefix(net, PriorOnly, batch, rng, t + 1).Success?
    requires Prefix(net, PriorOnly, batch, rng, t).Success?
    requires GenerativeProgress(Prefix(net, PriorOnly, batch, rng, t).value)
    ensures GenerativeProgress(Prefix(net, PriorOnly, batch, rng, t + 1).value)
  {
    var p := Prefix(net, PriorOnly, batch, rng, t).value;
    var m := Lookup(net, PriorOnly, t, false).value;
    UpsamplerRole(net, t);
    var hGen, cGen, upsampled := GenerativeStep(net, rng, t, m, p.state);
    GenerativeAdd(p.state.r, upsampled);
    var q := Advance(net, PriorOnly, rng, t, m, p);
    assert Prefix(net, PriorOnly, batch, rng, t + 1) == Success(q);
    assert q.state == State(hGen, cGen, p.state.hEnc, p.state.cEnc, Add(p.state.r, upsampled));
    assert q.canvases == p.canvases + [Add(p.state.r, upsampled)];
  }

  /** The sum of two generative tensors is generative. */
  lemma GenerativeAdd(a: Tensor, b: Tensor)
    requires Generative(a) && Generative(b)
    ensures Generative(Add(a, b))
  {
  }

  /**
   * One prior-only generator step on a generative state: the new hidden
   * and cell states and the upsampled canvas increment are generative.
   */
  lemma GenerativeStep(net: Network, rng: nat, t: nat, m: StepModules, s: State)
    returns (hGen: Tensor, cGen: Tensor, upsampled: Tensor)
    requires WellBuilt(net) && Fits(m, PriorOnly)
    requires Generative(s.hGen) && Generative(s.cGen) && Generative(s.r)
    requires net.GenerationCore(t) == Some(m.core) && net.GenerationPrior(t) == m.prior
    requires m.upsampler.role in {GenerationUpsampler, GenerationFinalUpsampler}
    ensures (hGen, cGen) == GeneratorNext(net, m, s, Latent(PriorOnly, m, s, rng, t), t)
    ensures upsampled == Call(m.upsampler, Upsample, [hGen])
    ensures Generative(hGen) && Generative(cGen) && Generative(upsampled)
  {
    assert m.core.role == GenerationCore by { ResolverRole(net.generationCores, net.hp.generatorShareCore, t, GenerationCore); }
    assert m.prior.value.role == GenerationPrior by { ResolverRole(net.generationPriors, net.hp.generatorSharePrior, t, GenerationPrior); }
    GenerativeCall(m.prior.value, MeanZ, [s.hGen]);
    GenerativeCall(m.prior.value, LnVarZ, [s.hGen]);
    GenerativeCall(net.generationDownsampler, Downsample, [s.r]);
    var z := Sample(Call(m.prior.value, MeanZ, [s.hGen]), Call(m.prior.value, LnVarZ, [s.hGen]), rng, t);
    assert z == Latent(PriorOnly, m, s, rng, t);
    GenerativeSample(Call(m.prior.value, MeanZ, [s.hGen]), Call(m.prior.value, LnVarZ, [s.hGen]), rng, t);
    var bn := BatchnormStep(net.hp.generatorShareCore, t);
    var args := [s.hGen, s.cGen, z, Call(net.generationDownsampler, Downsample, [s.r])];
    GenerativeCall(m.core, Forward(H, bn), args);
    GenerativeCall(m.core, Forward(C, bn), args);
    hGen, cGen := Call(m.core, Forward(H, bn), args), Call(m.core, Forward(C, bn), args);
    upsampled := Call(m.upsampler, Upsample, [hGen]);
    GenerativeCall(m.upsampler, Upsample, [hGen]);
  }

  /** Whatever the upsampler resolver yields on a well-built network is a generation upsampler. */
  lemma UpsamplerRole(net: Network, t: nat)
    requires WellBuilt(net) && net.GenerationUpsampler(t).Some?
    ensures net.GenerationUpsampler(t).value.role in {GenerationUpsampler, GenerationFinalUpsampler}
  {
    var k := if net.hp.generatorShareUpsampler then 0 else t;
    var count := RegularUpsamplerCount(net.hp);
    if k < count {
      assert net.generationUpsamplers[k] == net.generationUpsamplers[..count][k];
    }
  }

  /** A resolver over a list of one role yields a module of that role. */
  lemma ResolverRole(modules: seq<Link>, shared: bool, t: nat, role: Role)
    requires AllRole(modules, role) && Resolve(modules, shared, t).Some?
    ensures Resolve(modules, shared, t).value.role == role
  {
  }

  /**
   * The prior-only unroll never calls an inference core, posterior or
   * inference downsampler and never sees an input image: no canvas and
   * neither observation parameter involves one.
   */
  lemma PriorPathGenerative(net: Network, batch: nat, rng: nat)
    requires WellBuilt(net) && Unroll(net, PriorOnly, batch, rng, net.hp.generationSteps).Success?
    ensures var u := Unroll(net, PriorOnly, batch, rng, net.hp.generationSteps).value;
            && (forall k | 0 <= k < |u.canvases| :: Generative(u.canvases[k]))
            && Generative(u.muX) && Generative(u.lnVarX)
  {
    var steps := net.hp.generationSteps;
    PriorPrefixGenerative(net, batch, rng, steps - 1);
    var p := Prefix(net, PriorOnly, batch, rng, steps - 1).value;
    var m := Lookup(net, PriorOnly, steps - 1, true).value;
    var hGen, cGen, upsampled := GenerativeStep(net, rng, steps - 1, m, p.state);
    var u := Unroll(net, PriorOnly, batch, rng, steps).value;
    assert u == Finish(net, PriorOnly, rng, steps - 1, m, p);
    assert u.lnVarX == ChannelsFrom(upsampled, 3);
  }
}
