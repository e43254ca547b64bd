# FABRIC generator: a Dafny model

FABRIC steers a Stable Diffusion sampler with images the user liked or
disliked. At every denoising step whose feedback weight is positive (by default
every step once there are reference images; the feedback window only chooses
between the larger and the smaller weight), it does two things. First, it runs the
denoising network (the UNet) once on noised copies of the reference images.
That pass records the input of every self-attention module. Then it runs the network on the current
latents and intercepts every self-attention module in the weighted blocks (all
of them when there are no more up blocks than down blocks), so that each half of the
batch also attends to the recorded states of its polarity. The half
conditioned on the prompt uses the liked images and the unconditioned half
the disliked ones. The cached keys are weighted, and the weight depends on
the block's depth.

This project models the discrete logic around the tensor maths of
`fabric/generator.py`:

- the feedback schedule: the window, the weights and the progress rule;
- the depth ramp of the injection weights;
- patching and restoring the attention modules;
- the shared cache lists that the injected closures pop;
- the interception itself (chunk, weight row, concatenation);
- the rearrangement of the captured states into the two cache lists;
- the reweighting and renormalisation of attention probabilities;
- prompt broadcasting and the three-way embedding split;
- the choice of LoRA hidden sizes and rank.

Hidden states are nested sequences: a batch is a sequence of images, each a
sequence of token rows of `real`s. Floating point values are modelled as reals.

The network outside the attention modules is a parameter. `Feed` gives the
input of attention module m from the outputs of modules 0..m-1. Attention
itself (`attend`, `weighted`), the text encoder, and the scheduler step
(`next`) are parameters too. Python exceptions are `Failure` values of a
`Result`.

Modules, in the order one call flows through them:

| module | file | models |
|---|---|---|
| `Tensors` | tensors.dfy | batches, `chunk(2)`, `cat(dim=1)`, `view(1,-1,F)`, `expand` |
| `FeedbackSchedule` | schedule.dfy | `round`, the window, the weight pairs, the caching gate, the progress rule |
| `DepthRamp` | ramp.dfy | `linspace` and the per-block weights of the injection pass |
| `Renormalise` | renorm.dfy | lines 104-108 of `attn_with_weights` |
| `Interception` | intercept.dfy | the injected `new_forward` and the shared cache lists |
| `Instrumentation` | network.dfy | the UNet's attention modules, both passes, patch and restore |
| `References` | rearrange.dfy | splitting the captured states into the two cache lists |
| `Prompts` | prompts.dfy | prompt broadcasting and the embedding split |
| `Generation` | generation.dfy | one denoising step and the step loop of `generate` |
| `Lora` | lora.dfy | the rank and hidden-size logic of `apply_unet_lora_weights` |

`Wrappers` (Option, Result) and `Arith` (integer division facts) support the
rest.

## Behaviour as the code has it

The model follows the code in five places where the code's behaviour is easy to misread:

- When a cache list runs out during the injection pass, `pop(0)` raises
  IndexError. The call does not fall back to plain attention
  (`Instrumentation.InjectionDrainsCaches`).
- The feedback window includes both of its ends (`i >= ref_start_idx and
  i <= ref_end_idx`).
- The prompt-length assertions run after the reference images are encoded,
  not before any computation. The model has no encoding step, so only the
  error they raise is modelled.
- The patching loop of the injection pass walks only the zipped blocks, but
  its restore loop walks every module of the network. A module outside those
  blocks makes a normal return raise AttributeError.
- Neither pass has a `try/finally`. An exception leaves the modules patched
  (`Unet.ForwardWithCache`).

## Model

| member | source | states |
|---|---|---|
| `FeedbackSchedule.RoundHalfEven` | fabric/generator.py:420-421 | Python's `round`: the result is within 1/2 of x, and a tie goes to the even integer |
| `FeedbackSchedule.RoundHalfEvenUnique` | fabric/generator.py:420-421 | those two properties determine the rounded value, so the function is Python's rounding and no other |
| `FeedbackSchedule.RoundTies` | fabric/generator.py:420-421 | round(2.5) = 2, round(3.5) = 4 and round(-0.5) = 0, which rounding half up would not give |
| `FeedbackSchedule.WindowBounds` | fabric/generator.py:420-421 | the window's two ends: `round(N·feedback_start)` and `round(N·feedback_end)` |
| `FeedbackSchedule.WeightsAt` | fabric/generator.py:437-442 | a step's base weight (`max_weight` inside the window, `min_weight` outside) and the positive and negative weight pairs built from it |
| `FeedbackSchedule.CachesReferences` | fabric/generator.py:444 | references are cached and injected exactly when there is at least one reference image and the step's weight is positive |
| `FeedbackSchedule.WindowPolicy` | fabric/generator.py:437-440 | step i gets `max_weight` iff start <= i <= end, both ends included, and `min_weight` otherwise |
| `FeedbackSchedule.PairPolicy` | fabric/generator.py:441-442 | the positive pair is (w, w·pos_bottleneck_scale); the negative pair is (w·neg_scale, w·neg_scale·neg_bottleneck_scale) |
| `FeedbackSchedule.DefaultWindow` | fabric/generator.py:420-444 | with the default arguments and 20 timesteps the window is steps 7..13; caching runs at every step iff some reference image exists |
| `FeedbackSchedule.UpdatesProgress` | fabric/generator.py:494-496 | step i advances the bar when it is the last step, or past the warm-up and at the end of a scheduler-order group |
| `FeedbackSchedule.CountUpdates` | fabric/generator.py:494-496 | the number of the first k steps at which the progress rule holds |
| `FeedbackSchedule.UpdatesWithoutWarmup` | fabric/generator.py:494-497 | without warm-up steps, the first k steps advance the bar k div order times, so the loop advances it `denoising_steps` times, the bar's total |
| `DepthRamp.Linspace` | fabric/generator.py:263-265 | `linspace(a, b, steps)` has `steps` elements |
| `DepthRamp.LinspaceEnds` | fabric/generator.py:263-265 | the linspace starts at a and, with two or more steps, ends exactly at b |
| `DepthRamp.DownRamp` | fabric/generator.py:263-268 | the down ramp (linspace over n+1 steps, last element dropped) has n elements |
| `DepthRamp.DownRampAt` | fabric/generator.py:263-265 | down-ramp element k equals a + k·(b−a)/n |
| `DepthRamp.DownRampAvoidsBottleneck` | fabric/generator.py:263-272 | the dropped last element is b, and for a ≠ b no down-ramp element equals b |
| `DepthRamp.DownRampDescends` | fabric/generator.py:263-265 | when a >= b the down ramp never increases |
| `Tensors.Reverse` | fabric/generator.py:272 | `[::-1]`: same length, element k is element len−1−k of the input |
| `DepthRamp.DepthWeights` | fabric/generator.py:272-273 | one weight per depth position: the down ramp, then the pair's bottleneck weight, then the down ramp reversed |
| `DepthRamp.DepthWeightsShape` | fabric/generator.py:270-273 | the per-depth weight list has 2n+1 entries, starts at the own weight, has the bottleneck weight in the middle, and is a palindrome |
| `DepthRamp.ZipWeights` | fabric/generator.py:270-274 | zip truncates to the shortest list, and block p gets the pos and neg weights at p |
| `DepthRamp.BlockWeights` | fabric/generator.py:270-274 | the (pos, neg) weight pairs zipped with `down_blocks + [mid_block] + up_blocks`, built from the two depth weight lists |
| `DepthRamp.BlockWeightsCoverage` | fabric/generator.py:270-274 | min(nDown+1+nUp, 2nDown+1) blocks are weighted; that covers every block iff nUp <= nDown; block p gets ramp element p |
| `Tensors.Chunk2` | fabric/generator.py:285 | `chunk(2)` unpacked into two names succeeds iff the batch does not have exactly one entry (an empty batch gives two empty halves), and otherwise raises ValueError; the halves concatenate back to the batch, the first holding ceil(B/2) |
| `Tensors.ChunkOfConcat` | fabric/generator.py:434 | a batch doubled by `cat([z]*2)` chunks back into its two copies, the conditioned copy first |
| `Tensors.CatTokens` | fabric/generator.py:297-299 | `cat(dim=1)` succeeds iff the batch sizes and feature widths agree; sample i is its own tokens followed by the extra ones |
| `Tensors.Flatten` | fabric/generator.py:463-465 | `view(1, -1, F)`: the batch's images' token sequences, one after the other |
| `Tensors.FlattenLength` | fabric/generator.py:463-465 | flattening n images of L tokens gives n·L tokens |
| `Tensors.FlattenConcat` | fabric/generator.py:462-465 | flattening a concatenation is the concatenation of the flattenings |
| `Tensors.Share` | fabric/generator.py:465-468 | `expand(n_images, -1, -1)` gives n_images entries, each the same tokens |
| `Tensors.SeqLen` | fabric/generator.py:286 | `d_model`, the token count of the batch's first sample; an empty batch is taken as 1 |
| `Renormalise.RenormRow` | fabric/generator.py:107-108 | a row renormalises iff shapes agree and its weighted mass is non-zero (zero mass is torch's 0/0 NaN); the length is kept |
| `Renormalise.RenormSumsToOne` | fabric/generator.py:107-108 | a renormalised row sums to 1 |
| `Renormalise.RenormOnes` | fabric/generator.py:107-108 | all-ones weights leave a row that already sums to 1 unchanged |
| `Renormalise.MassPositive` | fabric/generator.py:107-108 | positive probabilities with non-negative weights, one of them positive, have positive mass, so the division is defined |
| `Renormalise.RepeatInterleave` | fabric/generator.py:106 | `repeat_interleave(heads, dim=0)`: each weight row repeated `heads` times in place |
| `Renormalise.RepeatInterleaveLength` | fabric/generator.py:105-106 | `repeat_interleave(heads)` of b weight rows has b·heads rows |
| `Renormalise.RepeatInterleaveAt` | fabric/generator.py:105-106 | row j of the interleaved weights is `weights[j div heads]` |
| `Renormalise.Reweight` | fabric/generator.py:104-108 | succeeds iff the weights broadcast (batch size 1, or one weight row per batch-head after interleaving), every row matches its weight row in length and every weighted mass is non-zero; then every probability row is renormalised by the weight row of its batch-head; a failure is ShapeMismatch for a shape error and NotANumber for a zero mass |
| `Renormalise.ReweightRows` | fabric/generator.py:104-108 | after reweighting, every row sums to 1; for batch size ≠ 1, row j was weighted by `weights[j div heads]`, and for batch size 1 by the single weight row |
| `Renormalise.ReweightOnes` | fabric/generator.py:104-108 | all-ones weights leave a score tensor whose rows sum to 1 unchanged |
| `Interception.WeightRow` | fabric/generator.py:289-303 | one row of the weight matrix: `ones(L)` repeated `1 + C div L` times with every position from L on set to the injection weight; ZeroDivisionError when L = 0 |
| `Interception.CachedAttention` | fabric/generator.py:297-309 | one half against its own tokens plus one cached state: the key concatenation, the weight row and weighted attention, with ShapeMismatch when the keys cannot be concatenated or the weights do not broadcast |
| `Interception.AttendHalf` | fabric/generator.py:293-311 | one half: without a cache its ordinary attention; with one, IndexError on an empty list, otherwise the cached attention with the list's front state and the rest of the list |
| `Interception.Intercept` | fabric/generator.py:285-334 | the injected `new_forward`: chunk, the conditioned half with the positive list and weight, then the unconditioned half with the negative ones, concatenated; the first exception stops it, with the lists as they were left |
| `Interception.RepeatOnes` | fabric/generator.py:289-302 | `ones(L).repeat(n)` has L·n entries, all 1 |
| `Interception.WeightRowLayout` | fabric/generator.py:289-303 | the weight row exists iff the sequence length L > 0; it has L·(1 + C div L) entries, the first L are 1 and the rest the injection weight |
| `Interception.WeightRowFitsKeys` | fabric/generator.py:297-303 | the weight row covers the L + C concatenated keys iff L divides C, in particular when C = n·L |
| `Interception.BuildWeightRow` | fabric/generator.py:289-303 | the buffer filled with ones, then with its tail overwritten in place, is the weight row above |
| `Interception.InterceptPops` | fabric/generator.py:293-316 | a successful interception pops exactly the front state of every present cache list and leaves an absent one absent |
| `Interception.InterceptBatch` | fabric/generator.py:285-334 | the output keeps the input's batch size and order; a half without a cache gets exactly the module's ordinary attention; a half with one had a non-empty list and gets the weighted attention against that list's front state, with its polarity's weight and the conditioned half's batch size and sequence length |
| `Interception.InterceptWithoutCaches` | fabric/generator.py:310-333 | with no caches the interception is ordinary attention on each half, concatenated |
| `Interception.HiddenQueue.PopFront` | fabric/generator.py:294-296 | `pop(0)` returns the front state and removes it, or raises IndexError on an empty list |
| `Interception.CachedBlockAttention` | fabric/generator.py:297-309 | the weighted branch (concatenate the keys, build the row, attend) equals its value model, errors included |
| `Interception.AttendHalfWith` | fabric/generator.py:293-311 | one half against its optional shared list: the output and the list afterwards are as the value model says |
| `Interception.InterceptBlock` | fabric/generator.py:285-334 | the injected `new_forward` against the two shared lists: output and both lists afterwards equal `Intercept` on the lists before |
| `Instrumentation.PatchAll` | fabric/generator.py:336-337 | every module with a hook has its `forward` saved as `old_forward` and the hook installed; the other modules are unchanged |
| `Instrumentation.RestoreFrom` | fabric/generator.py:342-345 | the restore loop from module m on: `forward = old_forward; del old_forward`, stopping with AttributeError at the first module that has no `old_forward`; keeps the number of modules |
| `Instrumentation.RestoreAll` | fabric/generator.py:342-345 | the whole restore loop, from the first module |
| `Instrumentation.RestoreFromPatched` | fabric/generator.py:342-345 | the restore loop over partially restored modules succeeds iff every module still to visit was patched, and then gives the original modules |
| `Instrumentation.RestoreAfterPatch` | fabric/generator.py:336-345 | restoring freshly patched modules gives back exactly the originals (each `forward` as it was, no `old_forward` left) iff every module was patched |
| `Instrumentation.InjectionHooks` | fabric/generator.py:270-276 | one hook slot per module; module m is hooked iff its block is among the zipped ones, and then with that block's (pos, neg) weight pair |
| `Instrumentation.InjectionCoverage` | fabric/generator.py:270-276 | every module is patched iff each module's block is below min(nDown+1+nUp, 2nDown+1); with nUp <= nDown that always holds |
| `Instrumentation.PlainTrace` | fabric/generator.py:261 | an unpatched forward pass gives one output per attention module |
| `Instrumentation.PlainInputs` | fabric/generator.py:229-240 | one module input per attention module of the plain pass |
| `Instrumentation.InjectTrace` | fabric/generator.py:339 | the forward call over the first n modules: each module's call on its input, the outputs so far, both shared lists, and the first exception, after which nothing runs |
| `Instrumentation.ModuleCall` | fabric/generator.py:337-339 | a module's current `forward`: the installed closure when it is hooked, its ordinary attention otherwise |
| `Instrumentation.TraceNext` | fabric/generator.py:339 | one more module call either stops the trace with its exception or appends its output, with the lists as the call left them |
| `Instrumentation.TraceStops` | fabric/generator.py:339 | an exception stops the forward call: no later module changes the trace |
| `Instrumentation.HookCount` | fabric/generator.py:270-276 | at most n of the first n modules are intercepted |
| `Instrumentation.TraceQueues` | fabric/generator.py:293-316 | after n modules without an exception, each present list has lost exactly its first K states (K = modules intercepted so far); with `ModuleCallPops` and `InterceptBatch` this means the k-th intercepted module attended to the k-th cached state |
| `Instrumentation.ModuleCallPops` | fabric/generator.py:293-316 | a returning module call pops one state per present list if intercepted, none otherwise |
| `Instrumentation.InjectionDrainsCaches` | fabric/generator.py:293-316 | with every module intercepted, a successful call consumes lists of |mods| states completely, and a shorter list makes the call raise |
| `Instrumentation.TraceWithoutHooks` | fabric/generator.py:260-261 | with no module intercepted, the injection pass's call is the plain forward pass |
| `Instrumentation.InjectionResult` | fabric/generator.py:260-347 | what the injection pass returns: the plain call when both caches are absent; otherwise the patched call's outputs, its first exception, or AttributeError from the restore loop |
| `Instrumentation.InjectionRestoreOutcome` | fabric/generator.py:336-347 | with a cache present and no exception in the network, the pass succeeds iff every module was patched, and otherwise raises AttributeError |
| `Instrumentation.CallModule` | fabric/generator.py:337-339 | calling a module's current forward runs the closure or the module's attention, as the value model says |
| `Instrumentation.Unet.Patch` | fabric/generator.py:336-337 | the patching loop saves each hooked module's forward and installs the hook; the other modules are untouched |
| `Instrumentation.Unet.Restore` | fabric/generator.py:342-345 | the restore loop leaves the modules as the value model says, and reports whether it went through |
| `Instrumentation.Unet.PlainForward` | fabric/generator.py:261 | the forward call of an unpatched network is the plain trace |
| `Instrumentation.Unet.GetHiddenStates` | fabric/generator.py:227-248 | the capture pass records each module's plain input in traversal order, leaves the outputs unchanged, and restores every module |
| `Instrumentation.Unet.ForwardWithCache` | fabric/generator.py:250-347 | with both caches absent, the plain call; otherwise the result and the lists after the call are those of the trace over the patched modules; an exception leaves them patched; success restores them exactly |
| `Instrumentation.Unet.InjectedForward` | fabric/generator.py:339 | the forward call over patched modules returns the trace's outputs or its first exception, leaving the lists as the trace says |
| `References.SplitRefs` | fabric/generator.py:462 | `split([n_pos, n_neg])` succeeds iff the sizes add up to the batch; the parts are its first n_pos and last n_neg entries |
| `References.Shared` | fabric/generator.py:465-468 | one polarity of one captured batch as every image sees it: flattened, then expanded to `n_images` copies |
| `References.Arrange` | fabric/generator.py:459-477 | the rearrangement succeeds iff every captured batch holds n_pos + n_neg references |
| `References.Rearrange` | fabric/generator.py:459-475 | the loop that splits, flattens, shares and appends gives the value model, errors included |
| `References.ArrangedCaches` | fabric/generator.py:459-477 | a polarity is None iff it has no images; otherwise its list has one entry per captured state, and each image sees that polarity's references laid end to end |
| `References.PolaritiesCoverBatch` | fabric/generator.py:462-468 | the positive and negative tokens together are the whole captured batch, flattened |
| `References.ArrangedLength` | fabric/generator.py:463-468 | with references of L tokens each, a shared entry holds n_pos·L (or n_neg·L) tokens, the cached length C that the weight row is built for |
| `Prompts.Broadcast` | fabric/generator.py:397-404 | a string is repeated n_images times; a list must have n_images entries, or AssertionError |
| `Prompts.SplitEmbeddings` | fabric/generator.py:406-410 | `split([n, n, 1])` succeeds iff there are 2n+1 embeddings, and the three parts concatenate back to them |
| `Prompts.SplitJoin` | fabric/generator.py:406-410 | splitting prompts + negative prompts + [""] gives the three groups back |
| `Prompts.PromptEmbeddings` | fabric/generator.py:397-410 | broadcast both prompt arguments, encode prompts + negative prompts + [""], and split the embeddings `[n, n, 1]` |
| `Prompts.EmbeddingRoles` | fabric/generator.py:397-411 | the embeddings exist iff both prompt arguments fit; image i's conditioned embedding is its prompt, its unconditioned one its negative prompt, and the third group is the empty prompt |
| `Generation.StepOutcome` | fabric/generator.py:437-487 | step i's result: its weights and hooks, then either capture, rearrangement and the injection pass with the resulting lists, or the injection pass without caches |
| `Generation.StepGate` | fabric/generator.py:444-477 | a step without references or with a zero weight runs the plain network; otherwise a polarity's list is present iff it has images, with one entry per module |
| `Generation.FeedbackStep` | fabric/generator.py:433-487 | one loop iteration (caching gate, capture, rearrangement, fresh lists, injection pass) returns the step's value model; on success it leaves the network as it found it, and on an exception the modules are either as found, patched for this step's weights, or those patched modules after the restore loop |
| `Generation.Generate` | fabric/generator.py:413-497 | the step loop computes `Run` over `len(timesteps)` steps; on success the network is unchanged and the bar advanced `CountUpdates` times; on an exception some step k raised after k successful ones, and the modules are left as that failing step leaves them |
| `Generation.Advance` | fabric/generator.py:494-497 | `pbar.update()` runs exactly when the progress rule holds for step i |
| `Generation.Run` | fabric/generator.py:424-492 | the latents after the first k steps, each step's outputs fed to the scheduler step, or the first step's exception |
| `Generation.RunStops` | fabric/generator.py:424-492 | an exception in one step ends the loop with that exception |
| `Lora.DownSizes` | fabric/generator.py:29-31 | the collected sizes are exactly the first dimensions of the `down.weight` entries |
| `Lora.LoraRank` | fabric/generator.py:29-33 | a rank exists iff some down weight exists and all down weights agree, and then it equals each of them; otherwise AssertionError |
| `Lora.DigitAt` | fabric/generator.py:43 | `int(name[k])` of one character: its digit, IndexError past the end, ValueError for a non-digit |
| `Lora.At` | fabric/generator.py:44 | indexing a list succeeds iff the index is in range, otherwise IndexError |
| `Lora.HiddenSize` | fabric/generator.py:40-47 | a processor's hidden size: the last channel count for the mid block, the digit after the prefix indexing the reversed or plain channel list for up and down blocks, else the previous name's size or UnboundLocalError |
| `Lora.HiddenSizeCases` | fabric/generator.py:40-47 | mid block: the last channel count; up block d: channel count len−1−d; down block d: channel count d; other names keep the previous size or raise UnboundLocalError |
| `Lora.Fill` | fabric/generator.py:34-53 | the processor map after the first k names and the hidden size still in scope, or the first name's exception |
| `Lora.LoraProcessors` | fabric/generator.py:25-55 | the rank from the weight file, then one processor per name |
| `Lora.FillShape` | fabric/generator.py:34-53 | the processor map has exactly the names seen as keys, each with the file's rank, no cross-attention dimension exactly for `attn1` names, and the hidden size its own block selects |
| `Lora.ApplyLora` | fabric/generator.py:25-55 | the loop that fills the dictionary equals the value model, errors included |
| `Lora.FillStops` | fabric/generator.py:34-53 | the first failing name's exception ends the loop |

## Left out

- Model, scheduler and weight-file loading (`from_pretrained`, `from_ckpt`, `torch.load`). These are I/O; the weight file becomes a list of (key, dimension-0 size) pairs.
- `unet.set_attn_processor` and `load_state_dict` at the end of `apply_unet_lora_weights`. These are calls into diffusers; the model stops at the processor map.
- Tokenizer and text encoder. They become a per-prompt `Encoder` parameter.
- VAE encoding and decoding, `image_to_tensor`, `numpy_to_pil`, PIL resizing. These are image I/O and float pixel maths.
- The attention tensor maths: projections, softmax, `bmm`, LoRA deltas, the xformers path with its `log` bias. They become the `attend` and `weighted` parameters; only the renormalisation of lines 104-108 is modelled.
- Renormalise.RenormRow: a zero weighted mass is reported as NotANumber. Torch does not raise there; it silently produces a NaN row.
- Scheduler numerics and randomness: sigma, `alpha_hat`, noising, `randn`, `scheduler.step`, guidance. These become `refFeed`, `genFeed` and `next`.
- Floating-point rounding. The model computes over exact reals.
- `tqdm` output and device/dtype moves. Only the count of `pbar.update()` calls is kept.
- Concurrency. The code is single-threaded.
- Instrumentation.RestoreFrom: assumes that `unet.modules()` visits the attention modules in the order the forward call runs them (down blocks, mid block, up blocks). diffusers registers the mid block after the up blocks, so the source's restore loop visits the mid block last. The only visible difference is a restore loop that raises AttributeError, which happens when nUp > nDown. The source then leaves the mid block's modules patched, while the model has already restored them. `Unet.ForwardWithCache` and `Generation.LeftAfterFailure` state the model's order in that case.
- Tensors.SeqLen: an empty batch does not carry its sequence length, and the model takes it as 1. The ZeroDivisionError that an empty batch with zero-length samples raises in the weight row is not modelled; every other successful result of an empty batch is empty either way.
- Tensors.CatTokens: feature widths are compared only through tokens that exist. Batches without tokens (an empty batch, or samples of zero tokens) carry no width, so they always concatenate, while torch's `cat(dim=1)` raises RuntimeError when their declared feature widths differ.
- Torch size-1 broadcasting of the weight matrix. It is modelled only as "batch size 1 or one weight row per sample".
- Other torch shape errors inside attention. These are out of scope with the tensor maths.
- Unicode digits. Python's `int()` accepts non-ASCII digits after `up_blocks.` / `down_blocks.`; the model accepts only ASCII `0`-`9`.
- Exceptions raised by the network outside the attention modules. `feed`, `attend` and `weighted` are total, so such exceptions cannot occur in the model.
- Instrumentation.Unet.GetHiddenStates: requires that no module is patched on entry. Running a pass on a network that an earlier exception left patched (where `old_forward` would be overwritten) is not modelled.
- Instrumentation.Unet.ForwardWithCache: requires that no module is patched on entry, as for the capture pass.
- Generation.FeedbackStep: requires that no module is patched on entry, so a step that raised is not followed by another step. `Generate` ends at the first exception, as the source's loop does.
- Generation.Generate: the prompt embeddings (`Prompts`) are not threaded through the loop. They reach the network only through `genFeed`; `Prompts.EmbeddingRoles` states what they hold.
- Generation.Generate: the progress count is stated only for a successful run.
