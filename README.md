# Convolutional DRAW / GQN single-layer model, in Dafny

This project models the single-layer convolutional DRAW model of the 64×64 runs
and proves properties of the model. The model has three parts:

- a recurrent generator and a recurrent inference network;
- each network is unrolled over a fixed number of generation steps;
- at every step the model resolves which layer module to use, either one shared
  module per role or one module per step.

The project covers these parts of the repository:

- `tensors.dfy`: tensors as symbolic terms.
  - A tensor is either zeros, a caller's input, a noise draw, or a call of one
    layer module on argument tensors.
  - The numerics of the layers are therefore left uninterpreted.
  - "Which state does this head read" becomes an equation between terms.
  - It also holds the step-to-module resolver that both model classes use, and
    the bookkeeping of the shared `ChainList` of parameters.
- `snapshot.dfy`: restoring the weights from a snapshot directory at the end of
  both constructors.
- `lstm_model.dfy`: the `LSTMModel` class of `models/lstm.py`.
  - Its construction under the five sharing flags, including the `steps - 1`
    regular upsamplers plus one final upsampler.
  - Its resolvers and `generate_initial_state`.
  - Its three unroll loops, each a `method` proved equal to one recursive
    specification, `Unroll`:
    - the posterior training pass;
    - the posterior step trace with `zero_variance` and `step_limit`;
    - sampling from the prior.
  - The specification raises the loop's errors:
    - `IndexError` when a resolver runs past its module list;
    - a shape mismatch when the 6-channel final upsampler is added to the
      3-channel canvas;
    - an unbound `mu_x` when the loop runs zero steps.
- `lstm_properties.dfy`: what the unrolls guarantee.
  - When they succeed and when they fail.
  - Every latent head reads the state from before that step's update.
  - The canvas protocol.
  - The step trace agrees with the training pass.
  - The zero-variance trace is deterministic.
  - The prior path never touches an inference module or the input image.
- `draw_model.dfy` and `draw_properties.dfy`: the `Model` class of `model.py`.
  - Its construction and initial state.
  - `generate_image` and `reconstruct_image`, each a loop proved against a
    recursive specification.
  - Generation involves no inference module.
  - Reconstruction samples each latent from the pre-update inference state.
- `training.dfy`: the bookkeeping of `train_mn.py`.
  - The annealed observation sigma and its two in-place refilled buffers, as a
    class over arrays.
  - The assembly of the loss from the latent-parameter list.
  - The choice of this process's shard of the sorted dataset listing.
- `inference_shapes.dfy`: the shape flow through the inference layers of
  `draw/nn/single_layer/inference.py`: `_Downsampler`, the residual
  `Downsampler`, `Core` and `Posterior`. A convolution is known only by what it
  does to an NCHW shape.
- `inference_cell.dfy`: the values `Core.forward_onestep` computes, element by
  element over the reals.
  - Sigmoid and tanh are parameters, known only to map into (0, 1) and (-1, 1).
  - The hidden state stays inside (-1, 1).
  - The cell state grows by less than one per step.

The model follows the code wherever the code differs from the repository's
description:

- A `step_limit` above `generation_steps` is not rejected up front. It fails
  inside the loop:
  - with an `IndexError`;
  - or, when the upsamplers are not shared, by adding the final 6-channel
    upsampler to the canvas.
  - When all the relevant modules are shared, the trace runs any number of
    steps.
- The inference-core batch-normalisation step follows `inference_share_core`
  at the call site.

## Model

| member | source | states |
|---|---|---|
| Tensors.ResolveInBounds | run/npy_64x64/single_layer/models/lstm.py:314-337 | A resolver over a list built with one module when shared and one per step otherwise never fails below the step count. It yields element 0 when shared and element `t` otherwise. |
| Tensors.Resolve | run/npy_64x64/single_layer/models/lstm.py:314-337 | A resolver returns entry 0 when its role is shared and entry `t` otherwise; an index past the list is the `IndexError` case. Its properties are stated by Tensors.ResolveInBounds, LstmProperties.ResolverRole and DrawProperties.ResolverRole. |
| Snapshots.RestoreWeights | run/npy_64x64/single_layer/models/lstm.py:35-42 | The weights are loaded exactly when a non-empty directory is given and the path exists and is a file, and reading succeeds. A failed read is caught, never fatal. A path that is not a file leaves the fresh weights. `model.py:32-39` is the same code. |
| LstmModel.BuiltNetworkWellBuilt | run/npy_64x64/single_layer/models/lstm.py:17-33 | The two construction passes, run in order on an empty parameter list, leave every module list of the right length and role. They also leave the final upsampler last in the upsampler list, and the parameter list in append order. |
| LstmModel.InitialState | run/npy_64x64/single_layer/models/lstm.py:143-174 | All four recurrent states are zeros of shape `[batch, chz_channels, 32, 32]`, and the canvas is zeros of shape `[batch, 3] + image_size`. |
| LstmModel.Network.GenerationCore | run/npy_64x64/single_layer/models/lstm.py:314-317 | `get_generation_core`, as Tensors.Resolve on the core list and `generator_share_core`. Stated by LstmProperties.ResolversInBounds and LstmModel.Lookup. |
| LstmModel.Network.GenerationPrior | run/npy_64x64/single_layer/models/lstm.py:319-322 | `get_generation_prior`, as Tensors.Resolve on the prior list and `generator_share_prior`. Stated by LstmProperties.ResolversInBounds. |
| LstmModel.Network.GenerationUpsampler | run/npy_64x64/single_layer/models/lstm.py:324-327 | `get_generation_upsampler`, as Tensors.Resolve on the upsampler list and `generator_share_upsampler`. Stated by LstmProperties.RegularUpsamplerNeverFinal and LastUpsamplerIsFinal. |
| LstmModel.Network.InferenceCore | run/npy_64x64/single_layer/models/lstm.py:329-332 | `get_inference_core`, as Tensors.Resolve on the inference core list and `inference_share_core`. Stated by LstmProperties.ResolversInBounds. |
| LstmModel.Network.InferencePosterior | run/npy_64x64/single_layer/models/lstm.py:334-337 | `get_inference_posterior`, as Tensors.Resolve on the posterior list and `inference_share_posterior`. Stated by LstmProperties.ResolversInBounds. |
| LstmModel.BatchnormStep | run/npy_64x64/single_layer/models/lstm.py:280 | The batch-norm step is `t` when the core is shared and 1 otherwise. Stated through LstmProperties.StateIsPreviousCoreOutput and PrefixGeneratorStep. |
| LstmModel.EncoderNext | run/npy_64x64/single_layer/models/lstm.py:273-283 | The inference core's `forward_onestep` on `h_t_gen`, `h_t_enc`, `c_t_enc`, the downsampled `x` and the downsampled `x - r_t`. Stated by LstmProperties.StateIsPreviousCoreOutput. |
| LstmModel.Recorded | run/npy_64x64/single_layer/models/lstm.py:285-298 | The training pass records the posterior's heads on `h_t_enc` and the prior's heads on `h_t_gen`. Stated by LstmProperties.RecordedAt and HeadsReadPreUpdateState. |
| LstmModel.Latent | run/npy_64x64/single_layer/models/lstm.py:217-222 | The latent is the posterior's mean with `zero_variance`, else a Gaussian draw. The prior unroll draws from the prior on `h_t_gen`. Stated by LstmProperties.ZeroVarianceLatentIsPosteriorMean and TraceLatentIsPosteriorSample. |
| LstmModel.GeneratorNext | run/npy_64x64/single_layer/models/lstm.py:292-295 | The generator core's `forward_onestep` on `h_t_gen`, `c_t_gen`, `z_t` and the downsampled canvas. Stated by LstmProperties.PrefixGeneratorStep and StateIsPreviousCoreOutput. |
| LstmModel.Advance | run/npy_64x64/single_layer/models/lstm.py:304-310 | A non-final step moves every state variable on and appends the new canvas. Stated by LstmProperties.PrefixCanvasStep and CanvasStep. |
| LstmModel.Finish | run/npy_64x64/single_layer/models/lstm.py:300-303 | The final step splits the final upsampler's output into `mu_x` and `ln_var_x`. Stated by LstmProperties.CanvasProtocol. |
| LstmModel.Lookup | run/npy_64x64/single_layer/models/lstm.py:263-271 | A step's lookup succeeds with exactly the modules the resolvers name, and with the final upsampler on the final step. It fails with `IndexError` exactly when one consulted resolver runs past its list. A non-final step's upsampler yields 3 channels. |
| LstmModel.Prefix | run/npy_64x64/single_layer/models/lstm.py:257-310 | After `t` non-final steps there are `t` canvases, and `t` latent-parameter entries in the training pass (none otherwise). The prefix never raises an unbound-local error. |
| LstmModel.Unroll | run/npy_64x64/single_layer/models/lstm.py:244-312 | The unroll fails with an unbound `mu_x` exactly when it runs zero steps. On success it returns `limit - 1` canvases, and one latent-parameter entry per step in the training pass. |
| LstmModel.PrefixFailureStable | run/npy_64x64/single_layer/models/lstm.py:260-310 | Once a step raises, every longer run raises the same error. |
| LstmModel.StepFailure | run/npy_64x64/single_layer/models/lstm.py:260-312 | A lookup that fails at a step the loop reaches makes the whole call raise that error. |
| LstmModel.LSTMModel.constructor | run/npy_64x64/single_layer/models/lstm.py:17-42 | The new model is well built for the given hyperparameters, its parameter list holds every module in append order, and its weights are as `RestoreWeights` says. |
| LstmModel.LSTMModel.Install | run/npy_64x64/single_layer/models/lstm.py:23-33 | The fields hold exactly the built modules, and the weights are untouched. |
| LstmModel.LSTMModel.BuildNetwork | run/npy_64x64/single_layer/models/lstm.py:17-33 | Both construction passes together yield a well-built network whose parameter list is the model's, holding every module once in append order. |
| LstmModel.LSTMModel.AppendModules | run/npy_64x64/single_layer/models/lstm.py:53-59 | One construction loop appends `n` fresh modules, numbered by their position in the parameter list, and nothing else. |
| LstmModel.LSTMModel.BuildGenerationNetwork | run/npy_64x64/single_layer/models/lstm.py:44-88 | It builds one core, prior and regular upsampler when the role is shared, otherwise `steps` cores and priors and `steps - 1` regular upsamplers. It also builds one downsampler, and a final upsampler appended last to the upsampler list. The parameter list grows by exactly these modules, in this order. |
| LstmModel.LSTMModel.BuildInferenceNetwork | run/npy_64x64/single_layer/models/lstm.py:90-122 | It builds one inference core and posterior when shared, otherwise `steps` of each, plus the two downsamplers for `x` and `x - r`. The parameter list grows by exactly these modules, in this order. |
| LstmModel.LSTMModel.SampleZAndXParamsFromPosterior | run/npy_64x64/single_layer/models/lstm.py:244-312 | The loop returns exactly the training-pass unroll over `generation_steps` steps: the latent parameters, the split output and the canvases, or the error it raises. |
| LstmModel.LSTMModel.SampleImageAtEachStepFromPosterior | run/npy_64x64/single_layer/models/lstm.py:176-242 | The loop returns exactly the step-trace unroll over `step_limit` steps, or over `generation_steps` when no limit is given, and records no latent parameters. |
| LstmModel.LSTMModel.SampleImageAtEachStepFromPrior | run/npy_64x64/single_layer/models/lstm.py:339-378 | The loop returns exactly the prior unroll over `generation_steps` steps and records no latent parameters. |
| LstmProperties.ResolversInBounds | run/npy_64x64/single_layer/models/lstm.py:314-337 | On a well-built model, each resolver at a step below `generation_steps` yields element 0 when its role is shared and element `t` otherwise. |
| LstmProperties.ResolverRole | run/npy_64x64/single_layer/models/lstm.py:314-337 | A resolver over a list of one role yields a module of that role. |
| LstmProperties.UpsamplerRole | run/npy_64x64/single_layer/models/lstm.py:324-327 | The upsampler resolver yields a regular or the final upsampler. |
| LstmProperties.RegularUpsamplerNeverFinal | run/npy_64x64/single_layer/models/lstm.py:75-86 | Before the last step, or whenever the upsampler is shared, the upsampler resolver yields a regular 3-channel upsampler and never the final one. |
| LstmProperties.LastUpsamplerIsFinal | run/npy_64x64/single_layer/models/lstm.py:75-86 | Without sharing, resolving the upsampler of the last step yields the final upsampler, whose output has 6 channels. |
| LstmProperties.LookupSucceeds | run/npy_64x64/single_layer/models/lstm.py:263-271 | On a well-built model, every lookup the loop makes within `generation_steps` succeeds, in every mode. |
| LstmProperties.PrefixSucceeds | run/npy_64x64/single_layer/models/lstm.py:260-310 | When every step's lookup succeeds, the non-final steps run through. |
| LstmProperties.InRangePrefixSucceeds | run/npy_64x64/single_layer/models/lstm.py:260-310 | On a well-built model, the non-final steps of a run of at most `generation_steps` steps succeed. |
| LstmProperties.UnrollSucceeds | run/npy_64x64/single_layer/models/lstm.py:244-312 | On a well-built model, any run of 1 to `generation_steps` steps succeeds. It has `limit - 1` canvases and, in the training pass, `limit` latent-parameter entries. |
| LstmProperties.NoStepsUnbound | run/npy_64x64/single_layer/models/lstm.py:260-312 | With zero generation steps, every unroll raises because `mu_x` is never bound. |
| LstmProperties.OverlongTraceMismatch | run/npy_64x64/single_layer/models/lstm.py:197-240 | Without upsampler sharing, a step trace longer than `generation_steps` adds the 6-channel final upsampler's output to the canvas and fails. |
| LstmProperties.OverlongTraceIndexError | run/npy_64x64/single_layer/models/lstm.py:197-213 | With a shared upsampler, an overlong step trace fails with `IndexError` unless the inference core, the posterior and the generator core are all shared too. |
| LstmProperties.SharedTraceAnyLength | run/npy_64x64/single_layer/models/lstm.py:176-242 | When the upsampler, both cores and the posterior are shared, a step trace of any positive length succeeds with `limit - 1` canvases. |
| LstmProperties.PrefixOfPrefix | run/npy_64x64/single_layer/models/lstm.py:257-310 | The canvases and latent parameters of a shorter run are a prefix of those of a longer run. |
| LstmProperties.RecordedAt | run/npy_64x64/single_layer/models/lstm.py:285-298 | Entry `k` of the latent-parameter list is what step `k` recorded, on the state from before step `k`. |
| LstmProperties.HeadsReadPreUpdateState | run/npy_64x64/single_layer/models/lstm.py:285-298 | Entry `k` holds the posterior's mean and log-variance of the inference hidden state before step `k`'s update. It also holds the prior's mean and log-variance of the generator hidden state before that update. |
| LstmProperties.StateIsPreviousCoreOutput | run/npy_64x64/single_layer/models/lstm.py:280-309 | Before step 0 the state is the initial zero state. Before step `k > 0`, the hidden states are the `H` outputs of step `k - 1`'s inference and generator cores, with that step's batch-norm step. Those cores were fed the hidden states from before step `k - 1`. |
| LstmProperties.CanvasProtocol | run/npy_64x64/single_layer/models/lstm.py:300-310 | Each canvas is the previous one (zeros at first) plus a regular upsampler's 3-channel output on the generator hidden state that step produced. `mu_x` is the final upsampler's first 3 channels plus the last canvas, and `ln_var_x` is the rest of that same output. The final upsampler reads the `H` output of the last step's generator core, which was fed the hidden state from before that step. |
| LstmProperties.CanvasIsState | run/npy_64x64/single_layer/models/lstm.py:305-310 | Canvas `k` is the canvas state the loop carries into step `k + 1`. |
| LstmProperties.CanvasStep | run/npy_64x64/single_layer/models/lstm.py:304-310 | Every canvas a successful run of non-final steps collected is the previous canvas (zeros at first) plus a regular 3-channel upsampler's output on the generator hidden state its step produced. |
| LstmProperties.UnrollCanvases | run/npy_64x64/single_layer/models/lstm.py:300-312 | A successful run returns the canvases collected by its non-final steps. |
| LstmProperties.PrefixCanvasStep | run/npy_64x64/single_layer/models/lstm.py:300-310 | The canvas after step `k` is the canvas before it (zeros before step 0) plus the output of the regular 3-channel upsampler step `k` resolves. That upsampler is called on `h_next_gen`, the generator hidden state after step `k`. |
| LstmProperties.PrefixGeneratorStep | run/npy_64x64/single_layer/models/lstm.py:292-307 | The generator hidden state after step `k` is the `H` output of step `k`'s generator core, called with that step's batch-norm step on the hidden state from before the step. |
| LstmProperties.TracePrefixAgrees | run/npy_64x64/single_layer/models/lstm.py:197-240 | With sampling on, the step trace reaches the same states and canvases as the training pass at every step below `generation_steps`. |
| LstmProperties.TraceStepAgrees | run/npy_64x64/single_layer/models/lstm.py:208-240 | Within `generation_steps`, the step trace with sampling and the training pass (lines 273-310) still reach equal states and canvases after one more non-final step. |
| LstmProperties.PrefixAdvances | run/npy_64x64/single_layer/models/lstm.py:260-310 | A run that has succeeded so far, and whose next lookups succeed, moves on by exactly one non-final loop iteration. |
| LstmProperties.AdvanceAgrees | run/npy_64x64/single_layer/models/lstm.py:208-240 | Given the same inference core, posterior, generator core and upsampler, a non-final step of the step trace with sampling and one of the training pass (lines 273-310) move equal states and canvases to equal states and canvases. The recorded parameters may differ. |
| LstmProperties.TraceAgreesWithTraining | run/npy_64x64/single_layer/models/lstm.py:176-312 | Over `generation_steps` steps and with the same noise, the step trace and the training pass return the same canvases, `mu_x` and `ln_var_x`. |
| LstmProperties.ZeroVariancePrefix | run/npy_64x64/single_layer/models/lstm.py:219-222 | With `zero_variance`, every prefix of the trace is independent of the noise. |
| LstmProperties.ZeroVarianceDeterministic | run/npy_64x64/single_layer/models/lstm.py:176-242 | With `zero_variance`, the whole step trace, canvases and output, is independent of the noise. |
| LstmProperties.ZeroVarianceLatentIsPosteriorMean | run/npy_64x64/single_layer/models/lstm.py:217-227 | With `zero_variance`, the latent step `k` feeds to its generator core is the posterior's mean on the inference hidden state from before the step. |
| LstmProperties.TraceLatentIsPosteriorSample | run/npy_64x64/single_layer/models/lstm.py:217-227 | Without `zero_variance`, the latent step `k` feeds to its generator core is a draw from the posterior's mean and log-variance, both on the inference hidden state from before the step. |
| LstmProperties.GenerativeStep | run/npy_64x64/single_layer/models/lstm.py:350-376 | A prior step on a state free of inference modules and of the input image keeps it free of both. |
| LstmProperties.PriorPrefixGenerative | run/npy_64x64/single_layer/models/lstm.py:339-376 | Every state and canvas the prior loop reaches involves no inference module and no input image. |
| LstmProperties.PriorStepGenerative | run/npy_64x64/single_layer/models/lstm.py:350-376 | One more prior step from a prefix whose states and canvases involve no inference module and no input image keeps them so. |
| LstmProperties.PriorPathGenerative | run/npy_64x64/single_layer/models/lstm.py:339-378 | The canvases, `mu_x` and `ln_var_x` returned by sampling from the prior involve no inference module and no input image. |
| DrawModel.BuiltNetworkWellBuilt | run/npy_64x64/single_layer/model.py:17-30 | The two construction passes, run in order on an empty parameter list, leave a well-built network whose parameter list holds every module once, in append order. |
| DrawModel.InitialState | run/npy_64x64/single_layer/model.py:112-143 | The four recurrent states are zeros of shape `[batch, channels_chz] + chrz_size`. The canvas `u` is zeros of shape `[batch, generator_channels_u] + image_size`. |
| DrawModel.ResolverInBounds | run/npy_64x64/single_layer/model.py:145-163 | On a well-built model, each of the four resolvers at a step below `generation_steps` yields element 0 when shared and element `l` otherwise. |
| DrawModel.ResolversDefined | run/npy_64x64/single_layer/model.py:145-163 | On a well-built model, none of the four resolvers fails at a step below `generation_steps`. |
| DrawModel.Network.GenerationCore | run/npy_64x64/single_layer/model.py:145-148 | `get_generation_core`, as Tensors.Resolve. Stated by DrawModel.ResolverInBounds. |
| DrawModel.Network.GenerationPrior | run/npy_64x64/single_layer/model.py:150-153 | `get_generation_prior`, as Tensors.Resolve. Stated by DrawModel.ResolverInBounds. |
| DrawModel.Network.InferenceCore | run/npy_64x64/single_layer/model.py:155-158 | `get_inference_core`, as Tensors.Resolve. Stated by DrawModel.ResolverInBounds. |
| DrawModel.Network.InferencePosterior | run/npy_64x64/single_layer/model.py:160-163 | `get_inference_posterior`, as Tensors.Resolve. Stated by DrawModel.ResolverInBounds. |
| DrawModel.GenerateStep | run/npy_64x64/single_layer/model.py:172-180 | One `generate_image` step. Stated by DrawProperties.GenerateStepReads and GenerateStepWithoutInference. |
| DrawModel.Generated | run/npy_64x64/single_layer/model.py:165-180 | The generator state after `l` steps. Stated by DrawProperties.GenerateReadsPreUpdateState and GeneratedWithoutInference. |
| DrawModel.ReconstructStep | run/npy_64x64/single_layer/model.py:199-215 | One `reconstruct_image` step. Stated by DrawProperties.ReconstructStepReads. |
| DrawModel.Reconstructed | run/npy_64x64/single_layer/model.py:185-215 | The state after `l` steps of `reconstruct_image`. Stated by DrawProperties.ReconstructReadsPreUpdateState. |
| DrawModel.Model.constructor | run/npy_64x64/single_layer/model.py:17-39 | The new model is well built for the given hyperparameters, its parameter list holds every module in append order, and its weights are as `RestoreWeights` says. |
| DrawModel.Model.Install | run/npy_64x64/single_layer/model.py:23-30 | The fields hold exactly the built modules, and the weights are untouched. |
| DrawModel.Model.BuildNetwork | run/npy_64x64/single_layer/model.py:17-30 | Both construction passes together yield a well-built network whose parameter list is the model's, holding every module once in append order. |
| DrawModel.Model.AppendModules | run/npy_64x64/single_layer/model.py:46-50 | One construction loop appends `n` fresh modules, numbered by their position in the parameter list, and nothing else. |
| DrawModel.Model.BuildGenerationNetwork | run/npy_64x64/single_layer/model.py:41-64 | It builds one core and prior when shared, `steps` of each otherwise, and one observation module, appended in that order. |
| DrawModel.Model.BuildInferenceNetwork | run/npy_64x64/single_layer/model.py:66-91 | It builds one inference core and posterior when shared, `steps` of each otherwise, and one downsampler, appended in that order. |
| DrawModel.Model.GenerateImage | run/npy_64x64/single_layer/model.py:165-183 | The loop returns the observation mean of the canvas reached after `generation_steps` prior steps, as the specification `Generated` defines it. |
| DrawModel.Model.ReconstructImage | run/npy_64x64/single_layer/model.py:185-218 | The loop returns the observation mean of the canvas reached after `generation_steps` posterior steps, as the specification `Reconstructed` defines it. |
| DrawProperties.ResolverRole | run/npy_64x64/single_layer/model.py:145-163 | A resolver over a list of one role yields a module of that role. |
| DrawProperties.GenerateStepWithoutInference | run/npy_64x64/single_layer/model.py:172-180 | One `generate_image` step on a state free of inference modules keeps it free of them. |
| DrawProperties.GeneratedWithoutInference | run/npy_64x64/single_layer/model.py:171-180 | Every state `generate_image` reaches is free of inference modules, provided the viewpoints and the representation are. |
| DrawProperties.NextGeneratedWithoutInference | run/npy_64x64/single_layer/model.py:171-180 | When the state after `l` steps of `generate_image` is free of inference modules, so is the state after `l + 1` steps. |
| DrawProperties.GeneratedImageWithoutInference | run/npy_64x64/single_layer/model.py:165-183 | The image `generate_image` returns involves no inference module. |
| DrawProperties.GenerateReadsPreUpdateState | run/npy_64x64/single_layer/model.py:171-180 | Step `l`'s prior samples its latent from the generator hidden state before the step, and the generator core moves on from that same state. That state is zeros on step 0 and the previous generator core's output afterwards. |
| DrawProperties.GeneratedGeneratorState | run/npy_64x64/single_layer/model.py:171-180 | After `l > 0` steps, the generator hidden state is the `H` output of step `l - 1`'s generator core, which was fed the hidden state from before that step. |
| DrawProperties.GenerateStepReads | run/npy_64x64/single_layer/model.py:172-180 | One `generate_image` step draws its latent from the prior on the generator state it was given. All three generator outputs come from one core call on that state. The inference state is left alone. |
| DrawProperties.ReconstructReadsPreUpdateState | run/npy_64x64/single_layer/model.py:196-215 | Step `l` samples its latent from the posterior on the inference state before the step. That state is zeros on step 0 and the previous inference core's output afterwards. The inference core always gets the query image downsampled once. The generator core's `H`, `C` and `U` outputs replace `hl_g`, `cl_g` and `ul_e`, and the inference core's `H` and `C` outputs replace `hl_e` and `cl_e`. |
| DrawProperties.ReconstructStepReads | run/npy_64x64/single_layer/model.py:199-215 | One `reconstruct_image` step draws its latent from the posterior on the inference state it was given. Its inference core is fed the downsampled image at argument 3. All five state variables are replaced: three by the generator core's outputs on one argument list, two by the inference core's outputs on another. |
| DrawProperties.ReconstructedEncoderState | run/npy_64x64/single_layer/model.py:196-215 | After `l > 0` steps, the inference hidden state is the `H` output of step `l - 1`'s inference core, which was fed the downsampled query image. |
| Training.Sigma | run/npy_64x64/single_layer/train_mn.py:168-171 | The annealed sigma never falls below `sigma_f`. It is either `sigma_f` or the linear interpolation at `num_updates / pixel_n`. |
| Training.LinearPartBelowFinal | run/npy_64x64/single_layer/train_mn.py:170-171 | The linear part is at most `sigma_f` exactly when the update count has reached `pixel_n`. |
| Training.SigmaReachesFinal | run/npy_64x64/single_layer/train_mn.py:168-171 | When `sigma_f < sigma_i`, sigma equals `sigma_f` exactly once `pixel_n` updates have been made. |
| Training.SigmaNonIncreasing | run/npy_64x64/single_layer/train_mn.py:168-171 | When `sigma_f <= sigma_i`, sigma never grows as the update count grows. |
| Training.SigmaDecreasing | run/npy_64x64/single_layer/train_mn.py:168-171 | When `sigma_f < sigma_i`, sigma strictly decreases up to `pixel_n` updates. |
| Training.SigmaAtZero | run/npy_64x64/single_layer/train_mn.py:116-124 | The schedule at zero updates is the initial `sigma_i` the buffers start from. |
| Training.PixelVariance.constructor | run/npy_64x64/single_layer/train_mn.py:116-124 | Sigma starts at `sigma_i`. Both buffers are fresh, of the given size, and filled with `sigma_i²` and its logarithm. |
| Training.PixelVariance.Fill | run/npy_64x64/single_layer/train_mn.py:173-174 | Every entry of the buffer is overwritten with the value. |
| Training.PixelVariance.RecordUpdate | run/npy_64x64/single_layer/train_mn.py:164-174 | The update count goes up by one and sigma becomes the schedule at the new count. Both buffers are refilled with `sigma²` and `log(sigma²)`. |
| Training.RunUpdates | run/npy_64x64/single_layer/train_mn.py:137-174 | After `n` updates the count has grown by `n`, and sigma is the schedule at the count, never below `sigma_f`. |
| Training.TotalKlAppend | run/npy_64x64/single_layer/train_mn.py:144-148 | The accumulated KL of a concatenated list is the sum of the two lists' KLs. |
| Training.TotalKlNonNegative | run/npy_64x64/single_layer/train_mn.py:144-148 | The accumulated KL is non-negative when every term is. |
| Training.TotalKl | run/npy_64x64/single_layer/train_mn.py:141-148 | The KL sum over the latent-parameter list. Stated by Training.TotalKlAppend, TotalKlNonNegative and AssembleLoss. |
| Training.AssembleLoss | run/npy_64x64/single_layer/train_mn.py:141-158 | The KL loss is the sum over the latent-parameter list divided by the batch size. The NLL loss is the NLL sum divided by the batch size. The loss is their sum. |
| Training.StrLeTotal | run/npy_64x64/single_layer/train_mn.py:64 | The string order used by `files.sort()` is total. |
| Training.Insert | run/npy_64x64/single_layer/train_mn.py:64 | Inserting a name adds exactly that name. |
| Training.InsertSorted | run/npy_64x64/single_layer/train_mn.py:64 | Inserting into a sorted listing keeps it sorted. |
| Training.SortFiles | run/npy_64x64/single_layer/train_mn.py:64 | Sorting permutes the listing. |
| Training.SortFilesSorted | run/npy_64x64/single_layer/train_mn.py:64 | Sorting yields a sorted listing. |
| Training.StrLe | run/npy_64x64/single_layer/train_mn.py:64 | Python's string order. Stated by Training.StrLeTotal. |
| Training.SubsetSizeIsCeiling | run/npy_64x64/single_layer/train_mn.py:65 | The subset size is the ceiling of `len(files) / comm.size`: the least count that covers the listing. |
| Training.SubsetSize | run/npy_64x64/single_layer/train_mn.py:65 | `int(math.ceil(len(files) / comm.size))`. Stated by Training.SubsetSizeIsCeiling. |
| Training.RotateLeft | run/npy_64x64/single_layer/train_mn.py:66-67 | Rotating left by `k` puts element `(k + i) mod n` at position `i`. |
| Training.SelectShard | run/npy_64x64/single_layer/train_mn.py:63-68 | A shard holds `subset_size` names, or the whole listing when that is shorter. |
| Training.ShardEntries | run/npy_64x64/single_layer/train_mn.py:63-68 | Entry `i` of rank `rank`'s shard is sorted name `(subset_size * rank + i) mod n`. |
| Training.ShardHolds | run/npy_64x64/single_layer/train_mn.py:63-68 | A rank whose rotated position `i` lands on sorted file `j` holds that file at entry `i` of its shard. |
| Training.ShardsCover | run/npy_64x64/single_layer/train_mn.py:63-68 | Every file of the listing is in the shard of some rank below `comm.size`. |
| Training.ShardPosition | run/npy_64x64/single_layer/train_mn.py:65-68 | The rank and position that hold sorted file `j`. |
| Training.RotateDeque | run/npy_64x64/single_layer/train_mn.py:66-67 | Rotating the deque by `-k`, one position at a time, is the left rotation by `k`. |
| Training.ShardFiles | run/npy_64x64/single_layer/train_mn.py:63-68 | The listing's sort, rotate and truncate yield exactly `SelectShard` of the listing. |
| InferenceShapes.ConvSide | draw/nn/single_layer/inference.py:90-96 | A convolution side exists exactly when the padded input covers the kernel. It is then at least 1, and the floor of `(n + 2p - k) / s` plus 1. |
| InferenceShapes.HalvingSide | draw/nn/single_layer/inference.py:90-96 | A kernel-2, stride-2 convolution halves a side of at least 2 (rounding down) and rejects smaller ones. |
| InferenceShapes.SamePaddingSide | draw/nn/single_layer/inference.py:97-103 | A stride-1 convolution with padding `(k - 1) / 2` keeps every positive side. |
| InferenceShapes.SameConvShape | draw/nn/single_layer/inference.py:97-103 | Such a convolution keeps batch and grid and sets the channels. |
| InferenceShapes.HalvingShape | draw/nn/single_layer/inference.py:90-96 | A halving convolution maps `H×W` to `H/2×W/2` when both sides are at least 2, and fails otherwise. |
| InferenceShapes.QuarterDownsampleShape | draw/nn/single_layer/inference.py:86-116 | `_Downsampler` maps `(B, C, H, W)` to `(B, channels, H/4, W/4)` exactly when `H, W >= 4`, and fails otherwise. |
| InferenceShapes.QuarterDownsample | draw/nn/single_layer/inference.py:86-116 | `_Downsampler`'s three convolutions on shapes. Stated by InferenceShapes.QuarterDownsampleShape. |
| InferenceShapes.FirstResidualAddAgrees | draw/nn/single_layer/inference.py:181-184 | Both operands of the first residual addition have shape `(B, channels, H/4, W/4)`. |
| InferenceShapes.SecondResidualAddAgrees | draw/nn/single_layer/inference.py:185-187 | Both operands of the second residual addition keep the shape they are given. |
| InferenceShapes.ResidualDownsampleShape | draw/nn/single_layer/inference.py:119-189 | `Downsampler` maps `(B, C, H, W)` to `(B, channels, H/4, W/4)` exactly when `H, W >= 4`, and fails otherwise. |
| InferenceShapes.ResidualDownsample | draw/nn/single_layer/inference.py:119-189 | `Downsampler`'s convolutions and residual additions on shapes. Stated by InferenceShapes.ResidualDownsampleShape and the two residual-addition lemmas. |
| InferenceShapes.CoreStepShape | draw/nn/single_layer/inference.py:44-52 | The concatenation has the summed channels. The step succeeds exactly when all four inputs share a positive grid and the previous cell has the gate shape, and then returns hidden and cell of that gate shape. |
| InferenceShapes.CoreStep | draw/nn/single_layer/inference.py:44-52 | The inference core's step on shapes. Stated by InferenceShapes.CoreStepShape. |
| InferenceShapes.PosteriorHeadsShape | draw/nn/single_layer/inference.py:55-83 | Both heads map `(B, C, H, W)` to the same `(B, channels_z, H, W)` on a positive grid, and fail otherwise. |
| InferenceShapes.PosteriorHeads | draw/nn/single_layer/inference.py:55-83 | The posterior's two heads on shapes. Stated by InferenceShapes.PosteriorHeadsShape. |
| InferenceShapes.QuarterChrzSide | run/npy_64x64/single_layer/hyperparams.py:9-10 | The latent grid side is the quarter of the image side, rounded down. |
| InferenceShapes.ScriptChrzSizeRejected | run/npy_64x64/single_layer/train_mn.py:103 | With 64×64 images and the script's 32×32 latent grid, the inference core's concatenation fails. |
| InferenceShapes.QuarterChrzSizeAccepted | run/npy_64x64/single_layer/hyperparams.py:9-10 | With the latent grid a quarter of the image side, every inference-core step succeeds and returns states of the shape it was given. |
| InferenceShapes.ReconstructCoreStep | run/npy_64x64/single_layer/model.py:196-204 | The inference core's step of `reconstruct_image` on shapes, with the residually downsampled query image. Stated by InferenceShapes.ScriptChrzSizeRejected and QuarterChrzSizeAccepted. |
| InferenceCell.HiddenBounded | draw/nn/single_layer/inference.py:47-51 | Each element of `next_h` lies strictly between -1 and 1, whatever the previous cell. |
| InferenceCell.CellGrowth | draw/nn/single_layer/inference.py:47-50 | One step grows the magnitude of the cell by less than 1. |
| InferenceCell.CellAfterBound | draw/nn/single_layer/inference.py:47-50 | After `n` steps, the cell's magnitude is at most its start plus `n`, and strictly less once a step has been taken. |
| InferenceCell.CoreValues | draw/nn/single_layer/inference.py:44-52 | The step yields one `next_h` and one `next_c` element per input element. |
| InferenceCell.CoreHiddenBounded | draw/nn/single_layer/inference.py:44-52 | Every element of the `next_h` tensor lies strictly between -1 and 1. |
| InferenceCell.NextCell | draw/nn/single_layer/inference.py:47-50 | `next_c`, per element. Stated by InferenceCell.CellGrowth. |
| InferenceCell.NextHidden | draw/nn/single_layer/inference.py:51 | `next_h`, per element. Stated by InferenceCell.HiddenBounded. |
| InferenceCell.CellAfter | draw/nn/single_layer/inference.py:47-50 | The cell after one step per gate input. Stated by InferenceCell.CellAfterBound. |

## Left out

- Numerics:
  - Convolutions, sigmoid, tanh, sub-pixel shuffling, Gaussian sampling and the KL
    and NLL formulas are uninterpreted calls.
  - Float32 rounding is not modelled; reals stand for floats.
- I/O and environment:
  - The GPU and `xp` array module, `print`, HDF5 serialisation and the
    optimizer are not modelled.
  - MPI is not modelled. The communicator's size and rank are parameters, and the
    size is required to be positive because a communicator always has at
    least one process.
  - The dataset listing is a parameter standing for `os.listdir`.
  - Image loading and scaling, the train/dev split, the timing and the printed
    `mean_kld`/`mean_nll` are not modelled.
- Snapshots.RestoreWeights: the file system is a parameter saying whether the
  path exists, whether it is a file, and whether reading succeeds.
- `draw/nn/chainer/single_layer/generator/parameters.py`, `convolutional_draw/`,
  `debug.py` and `layer.py` are not part of this model.
- The generator's `Core`, `Prior`, `ObservationDistribution`, the upsamplers and
  `SingleLayeredConvDownsampler` are not part of this model. They are known only
  by their role and their place in the parameter list.
  - The one exception is the channel count of the upsampler outputs: 3·4² and
    6·4² convolution channels, shuffled by 4.
- `lstm.py:97` sizes the inference cores' batch-normalisation steps from
  `generator_share_core`. Batch-norm step counts at construction are not modelled.
  Only the step each call passes is modelled.
- `lstm.py:273-275`: the `no_backprop_diff_xr` detach changes gradients, not
  values, and is not modelled.
- LstmModel.LSTMModel.SampleImageAtEachStepFromPosterior: a negative
  `step_limit` (an empty loop in Python) is not representable. The limit is a
  natural number.
- `lstm.py:144` hard-codes a 32×32 hidden state for `SingleLayeredConvDownsampler`
  outputs. Whether those shapes agree is not checked, because that downsampler is
  not part of this model.
- `model.py:203-204` passes six arguments to the inference core, while
  `inference.py:44` declares five. `inference.py:45` reads an undefined `v`.
  - `DrawModel` keeps `model.py`'s argument list in the symbolic call.
  - `InferenceShapes` and `InferenceCell` follow `inference.py`'s five-argument
    signature, with the undefined `v` dropped.
- `train_mn.py:142` calls `generate_z_params_and_x_from_posterior`, which `model.py`
  does not define. Training.AssembleLoss therefore takes the latent-parameter
  list and the NLL sum as parameters.
- Several hyperparameter fields are not defined in `hyperparams.py`:
  `generator_share_upsampler`, `chz_channels`, `generator_channels_u`,
  `no_backprop_diff_xr` and `batch_normalization_enabled`. They are plain fields
  of the model's hyperparameter records.
- Training.Sigma: `pixel_n == 0` raises `ZeroDivisionError` in Python and is a
  precondition here. A zero sigma would make `math.log(sigma_t**2)` raise; the
  logarithm is a parameter of `PixelVariance`.
- Training.AssembleLoss: a non-zero batch size is a precondition. With a batch size
  of 0, dividing the Chainer `Variable` `loss_nll` gives `inf` or `nan`. Only an
  empty latent-parameter list, which leaves `loss_kld` the integer 0, would raise
  `ZeroDivisionError`. Neither outcome is modelled.
- Training.SubsetSizeIsCeiling: the ceiling is exact integer arithmetic. Float
  rounding of `len(files) / comm.size` is not modelled.
- Training.RotateDeque: `deque.rotate(-k)` is modelled as `k` single-position
  left rotations.
- InferenceShapes.ApplyConv: Chainer infers input channels from the first call
  (`None`), so a convolution accepts any input channel count. Addition and
  concatenation require exactly equal shapes, with no broadcasting.

## Findings

| source | as written | input that shows it | evidently intended | confidence | as-written member | corrected member |
|---|---|---|---|---|---|---|
| run/npy_64x64/single_layer/train_mn.py:103 | The script sets `chrz_size = (32, 32)`. `Model`'s inference `Downsampler` reduces a 64×64 query image to 16×16. | Any 64×64 image. The inference core concatenates 32×32 hidden states with the 16×16 downsampled image at `inference.py:46`, and the shapes disagree. | `chrz_size` a quarter of `image_size`, (16, 16), as `hyperparams.py:10` states. | not executed; the argument-count mismatch between `model.py:203-204` and `inference.py:44` would raise first. | InferenceShapes.ScriptChrzSizeRejected | InferenceShapes.QuarterChrzSizeAccepted |
