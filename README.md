# KelpNet core, modelled in Dafny

This project models four pieces of KelpNet, a neural-network library written in C#:

- **Graph bookkeeping of single-input units** (`SingleInputFunction`), in `graph.dfy`.
  `Forward` pushes the input tuple on the unit's `PrevInputs` stack and counts one more use of the input node.
  `Backward` pops that tuple, counts one use less, allocates the input's gradient lazily and runs the derivative rule.
  `Predict` does no bookkeeping.
  Nodes and units live in one arena (`Graph.Arena`) and refer to each other by index.
- **Composition** (`FunctionStack`), in `composition.dfy`.
  It covers the stack-of-stacks constructor, the one-pass `Compress` that fuses a fusable unit with the activation after it, and `Forward` and `Predict` as left folds.
  It also covers the recursive `Backward` walk over the recorded graph.
- **The LSTM connection** (`LSTM`), in `gates.dfy` and `recurrent.dfy`.
  Each lane (batch entry) keeps five history stacks, a hidden state, a carried cell gradient `gcPrev` and the lateral feedback `gxPrev`.
  `ForwardSingle` pushes one time step per lane and `BackwardSingle` pops one.
  `ExtractGates` and `RestoreGates` are the stride-4 gate layout.
- **The LeakyReLU activation** rule, in `activations.dfy`.

`common.dfy` holds small shared helpers: `Option`, zero buffers, and stack top and pop on sequences.

State that the C# code updates in place is a Dafny `class` whose methods name what they modify: `Graph.Arena`, `Composition.FunctionStack` and `Recurrent.LSTM`.
Each such method is proved against a pure specification function (`Forwarded`, `Popped`, `ForwardFold`, `Walk`, `CompressPass`, `ForwardLane`, `BackwardLane`, ...).
The properties are proved as lemmas about those functions.
Loops in the source are `while` loops with invariants: the flattening constructor, the `Compress` scan, both folds, the walk, the element loops of `ForwardSingle` and `BackwardSingle`, and the loops of `ExtractGates` and `RestoreGates`.

Numbers are Dafny `real`. `Math.Tanh` and `Math.Exp` are uninterpreted functions in the LSTM's configuration (`Recurrent.Config`).
The only facts assumed about them are that tanh lies within [-1, 1] and that exp is not negative.
`Linear` projections are opaque pairs of functions with the stated input and output lengths.

A reader might expect `Compress` to be idempotent, so that compressing twice changes nothing more. It is not, and the model follows the code:

- The code's scan moves past the element that follows a removed activation, so `[CF, CA, CA]` becomes `[CF, CA]` after one pass.
  The model keeps the code's behaviour, and `Composition.CompressNotIdempotent` proves that two passes differ from one.
  This is not listed as a finding: fusing the second activation would overwrite the first one attached to the unit, so a single pass may well be what the authors meant.

## Model

| member | source | states |
|---|---|---|
| Graph.Forwarded | KelpNet/Common/Functions/Type/SingleInputFunction.cs:15-21 | Forward keeps the graph well formed and creates exactly one node, the one it returns |
| Graph.Popped | KelpNet/Common/Functions/Type/SingleInputFunction.cs:23-38 | Backward underflows exactly when PrevInputs is empty, and then changes nothing; otherwise one stack entry fewer in total; producers never change |
| Graph.Arena.Forward | KelpNet/Common/Functions/Type/SingleInputFunction.cs:15-21 | the in-place Forward (push the tuple, count one use, create the output node) yields exactly the state and node of Forwarded |
| Graph.Arena.Backward | KelpNet/Common/Functions/Type/SingleInputFunction.cs:23-38 | the in-place Backward (pop, arity check, count one use less, lazy Grad, derivative rule) yields exactly the state and outcome of Popped |
| Graph.Arena.SetActivation | KelpNet/Common/Functions/FunctionStack.cs:49 | attaching an activation to a fusable unit changes that unit's attachment and nothing else |
| Graph.ForwardPushesTuple | KelpNet/Common/Functions/Type/SingleInputFunction.cs:17 | Forward grows the unit's stack by one with the given tuple on top, keeps every entry below it and every other unit's stack |
| Graph.ForwardCountsOneUse | KelpNet/Common/Functions/Type/SingleInputFunction.cs:18-20 | Forward counts exactly one more use of xs[0] and changes no other node; the new node holds the forward rule of xs[0]'s data, produced by this unit, with no uses |
| Graph.BackwardPopsTop | KelpNet/Common/Functions/Type/SingleInputFunction.cs:25-29 | Backward removes exactly the top tuple and keeps the earlier ones and the other stacks; it fails with BadArity exactly for an empty tuple or, in DEBUG, a tuple whose length is not 1 |
| Graph.BackwardReleasesOneUse | KelpNet/Common/Functions/Type/SingleInputFunction.cs:31-37 | a successful Backward counts exactly one use less of xs[0]; an existing gradient buffer is kept for accumulation and a zero one is allocated only when there is none; the other nodes are unchanged |
| Graph.ForwardThenBackward | KelpNet/Common/Functions/Type/SingleInputFunction.cs:15-38 | a Forward followed by its Backward restores every stack and every use count |
| Graph.PredictMatchesForward | KelpNet/Common/Functions/Type/SingleInputFunction.cs:40-49 | without a Predict override, Predict returns the data of the node Forward would create |
| Composition.FlattenLength | KelpNet/Common/Functions/FunctionStack.cs:23-36 | the flattened unit list is as long as all the stacks' lists together |
| Composition.FlattenPlacesEach | KelpNet/Common/Functions/FunctionStack.cs:23-36 | each stack's units appear in order, right after the units of the stacks before it |
| Composition.FlattenConcat | KelpNet/Common/Functions/FunctionStack.cs:23-36 | flattening two groups of stacks is the concatenation of their flattenings |
| Composition.FlattenAppend | KelpNet/Common/Functions/FunctionStack.cs:27-33 | adding one more stack appends its units at the end |
| Composition.FunctionStack.constructor | KelpNet/Common/Functions/FunctionStack.cs:18-21 | the stack holds exactly the given units |
| Composition.FunctionStack.FromStacks | KelpNet/Common/Functions/FunctionStack.cs:23-36 | the nested copy loops produce the in-order concatenation of every argument's units |
| Composition.Merges | KelpNet/Common/Functions/FunctionStack.cs:45-50 | every pair a pass fuses is a fusable unit followed by an activation |
| Composition.CompressDropsOnlyActivations | KelpNet/Common/Functions/FunctionStack.cs:43-53 | Compress keeps the units in order and removes only activations |
| Composition.CompressRemovesOnePerMerge | KelpNet/Common/Functions/FunctionStack.cs:45-50 | each fusion removes exactly one unit |
| Composition.MergesIffFusablePair | KelpNet/Common/Functions/FunctionStack.cs:43-53 | a pass fuses something exactly when some fusable unit is directly followed by an activation |
| Composition.CompressUnchangedIff | KelpNet/Common/Functions/FunctionStack.cs:43-55 | Compress leaves the list unchanged if and only if no fusable unit is directly followed by an activation |
| Composition.NoPairNoChange | KelpNet/Common/Functions/FunctionStack.cs:43-55 | without such a pair the list is unchanged |
| Composition.CompressStepFused | KelpNet/Common/Functions/FunctionStack.cs:45-51 | when l[i] fuses with l[i+1], attaching the activation and removing it from the list leaves the same final list and the same final attachments still to come |
| Composition.CompressStepKept | KelpNet/Common/Functions/FunctionStack.cs:43-51 | when l[i] does not fuse with l[i+1], moving on to i+1 leaves the same final list and the same fused pairs still to come |
| Composition.CompressNotIdempotent | KelpNet/Common/Functions/FunctionStack.cs:43-51 | [CF, CA1, CA2] compresses to [CF, CA2] fusing only CA1, and a second pass gives [CF]: one pass is not a fixed point |
| Composition.FunctionStack.Compress | KelpNet/Common/Functions/FunctionStack.cs:38-56 | the in-place scan with RemoveAt leaves the list of CompressPass and calls SetActivation for exactly the pairs of Merges, in order |
| Composition.ForwardFold | KelpNet/Common/Functions/FunctionStack.cs:59-69 | Forward through n units adds exactly n nodes and returns the last one |
| Composition.ForwardFoldComputes | KelpNet/Common/Functions/FunctionStack.cs:59-69 | the output holds the units' forward rules applied in order to the input's data and was produced by the last unit |
| Composition.ForwardFoldConcat | KelpNet/Common/Functions/FunctionStack.cs:59-69 | Forward through a concatenation of unit lists is Forward through the first followed by Forward through the second |
| Composition.ForwardFoldKeepsOtherStacks | KelpNet/Common/Functions/FunctionStack.cs:59-69 | Forward leaves the stack of every unit outside the list unchanged |
| Composition.FunctionStack.Forward | KelpNet/Common/Functions/FunctionStack.cs:59-69 | the accumulator loop over the units yields exactly ForwardFold's state and output |
| Composition.FunctionStack.ForwardRest | KelpNet/Common/Functions/FunctionStack.cs:63-66 | the loop from the second unit on, started from the first unit's Forward, yields exactly ForwardFold over all the units |
| Composition.PredictFoldConcat | KelpNet/Common/Functions/FunctionStack.cs:107-117 | Predict through a concatenation is Predict through the first list, then through the second |
| Composition.PredictIsFoldData | KelpNet/Common/Functions/FunctionStack.cs:107-117 | without Predict overrides, Predict applies the forward rules in order |
| Composition.PredictMatchesForwardFold | KelpNet/Common/Functions/FunctionStack.cs:107-117 | without Predict overrides, the stack's Predict returns the data of the node its Forward returns |
| Composition.FunctionStack.Predict | KelpNet/Common/Functions/FunctionStack.cs:107-117 | the accumulator loop over the units' Predict yields PredictFold, and changes nothing |
| Composition.Walk | KelpNet/Common/Functions/FunctionStack.cs:71-85 | the literal Backward walk keeps the graph well formed and never grows the stacks |
| Composition.WalkAll | KelpNet/Common/Functions/FunctionStack.cs:80-83 | the loop over the tuple keeps the graph well formed and never grows the stacks |
| Composition.WalkFixed | KelpNet/Common/Functions/FunctionStack.cs:71-85 | the corrected walk keeps the graph well formed and never grows the stacks |
| Composition.WalkFixedAll | KelpNet/Common/Functions/FunctionStack.cs:80-83 | the corrected walk's loop keeps the graph well formed and never grows the stacks |
| Composition.WalkStopsAtPendingOrInput | KelpNet/Common/Functions/FunctionStack.cs:73 | Backward does nothing on a node with pending uses or without a producer |
| Composition.LiteralWalkUnderflows | KelpNet/Common/Functions/FunctionStack.cs:75-78 | on the output of a chain whose last unit has no other pending call, the literal walk reads the top of an empty list |
| Composition.PopUndoesForward | KelpNet/Common/Functions/Type/SingleInputFunction.cs:17-34 | the producer's Backward on a node its last Forward made removes exactly the tuple and the use that Forward added |
| Composition.ChainBalanced | KelpNet/Common/Functions/FunctionStack.cs:71-85 | the corrected walk from a chain's output restores every stack and old use count and leaves the chain's nodes at zero uses, whatever gradients were computed |
| Composition.ForwardThenWalkBalanced | KelpNet/Common/Functions/FunctionStack.cs:71-85 | Forward through a chain followed by the corrected Backward succeeds and leaves all stacks and use counts as before |
| Composition.FunctionStack.Backward | KelpNet/Common/Functions/FunctionStack.cs:71-85 | the recursive method, with its loop over the popped tuple, yields exactly the literal walk's state and outcome |
| Composition.FunctionStack.BackwardInputs | KelpNet/Common/Functions/FunctionStack.cs:80-83 | the loop calling Backward on each node of the tuple, stopping at the first failure, yields exactly WalkAll |
| Composition.FunctionStack.BackwardIntendedInputs | KelpNet/Common/Functions/FunctionStack.cs:80-83 | the same loop over the corrected Backward yields exactly WalkFixedAll |
| Composition.FunctionStack.BackwardIntended | KelpNet/Common/Functions/FunctionStack.cs:71-85 | the recursive method with the tuple read before the pop yields exactly the corrected walk, which ForwardThenWalkBalanced proves balanced |
| Gates.Extracted | KelpNet/Functions/Connections/LSTM.cs:256-286 | ExtractGates yields four gates of a quarter of the first argument's length |
| Gates.ExtractAdds | KelpNet/Functions/Connections/LSTM.cs:265-274 | ExtractGates over two arguments is the sum of ExtractGates over each |
| Gates.ColumnStep | KelpNet/Functions/Connections/LSTM.cs:267-273 | each argument adds its entry 4j+k to gate k, position j |
| Gates.AddRow | KelpNet/Functions/Connections/LSTM.cs:267-273 | for each position j, entry 4j+k of the argument is added to gate buffer k, which holds its old value plus that entry |
| Gates.AddArgument | KelpNet/Functions/Connections/LSTM.cs:267-273 | the inner loop adds one argument's stride-4 entries into the four buffers |
| Gates.ExtractGates | KelpNet/Functions/Connections/LSTM.cs:256-286 | the accumulation loops over four zeroed buffers yield Extracted |
| Gates.Interleave | KelpNet/Functions/Connections/LSTM.cs:231-239 | the interleaved buffer holds four times the gate length |
| Gates.Restored | KelpNet/Functions/Connections/LSTM.cs:228-254 | RestoreGates yields four vectors of the gate length |
| Gates.Blocks | KelpNet/Functions/Connections/LSTM.cs:50-54 | copying the four projection outputs one after another gives a buffer of their total length |
| Gates.BlocksOfRestored | KelpNet/Functions/Connections/LSTM.cs:241-251 | the four blocks put back together give the interleaved buffer |
| Gates.ExtractRestoreRoundTrip | KelpNet/Functions/Connections/LSTM.cs:256-286 | ExtractGates on the concatenation of RestoreGates' outputs gives back the four gates |
| Gates.RestoreExtractRoundTrip | KelpNet/Functions/Connections/LSTM.cs:228-254 | RestoreGates of ExtractGates of four contiguous blocks of equal length gives back the four blocks; so when InputCount equals OutputCount each gate's gradient returns to the projection output that fed it |
| Gates.RoutingNeedsEqualCounts | KelpNet/Functions/Connections/LSTM.cs:137-140 | with InputCount 1 and OutputCount 2, the input gate at position 0 is read from the first projection's entry 1, but its gradient is handed to the second projection at entry 0 |
| Gates.RestoredZeros | KelpNet/Functions/Connections/LSTM.cs:228-254 | restoring four zero gates gives four zero gates |
| Gates.FillInterleaved | KelpNet/Functions/Connections/LSTM.cs:231-239 | the first loop puts gate k, position i at index 4i+k of a fresh buffer |
| Gates.CopyBlock | KelpNet/Functions/Connections/LSTM.cs:245-250 | the inner copy loop copies exactly the block at the given offset |
| Gates.RestoreGates | KelpNet/Functions/Connections/LSTM.cs:228-254 | the interleave-then-copy loops yield Restored |
| Recurrent.Sigmoid | KelpNet/Functions/Connections/LSTM.cs:213-216 | the sigmoid lies in (0, 1] |
| Recurrent.GradSigmoidBounds | KelpNet/Functions/Connections/LSTM.cs:218-221 | on sigmoid outputs GradSigmoid lies within [0, 1/4] |
| Recurrent.GradTanhBounds | KelpNet/Functions/Connections/LSTM.cs:223-226 | on tanh outputs GradTanh lies within [0, 1] |
| Recurrent.Preactivation | KelpNet/Functions/Connections/LSTM.cs:50-73 | the gate pre-activations are four vectors of outputCount values |
| Recurrent.CellStep | KelpNet/Functions/Connections/LSTM.cs:75-91 | one step yields six vectors of outputCount values |
| Recurrent.PrevCell | KelpNet/Functions/Connections/LSTM.cs:45-48 | the cell a step starts from has outputCount values |
| Recurrent.Pushed | KelpNet/Functions/Connections/LSTM.cs:93-98 | after the pushes the lane's newest step is exactly the computed one |
| Recurrent.ForwardLane | KelpNet/Functions/Connections/LSTM.cs:43-101 | a forward step leaves a well-shaped lane holding a step, whose hidden state is the returned output |
| Recurrent.ForwardLaneTops | KelpNet/Functions/Connections/LSTM.cs:79-98 | the newest step is the cell update of the pre-activations and the previous cell |
| Recurrent.CellStepFacts | KelpNet/Functions/Connections/LSTM.cs:82-91 | every position obeys c = a*i + f*cPrev and h = o*tanh(c); a lies in [-1, 1] and i, f and o in (0, 1] |
| Recurrent.CellStepFactsAt | KelpNet/Functions/Connections/LSTM.cs:84-90 | the same at one position |
| Recurrent.EquationsContain | KelpNet/Functions/Connections/LSTM.cs:89-90 | under the cell equations, h lies within [-1, 1] and no cell value moves by more than one |
| Recurrent.ForwardPushesOneStep | KelpNet/Functions/Connections/LSTM.cs:45-98 | a forward step pushes one entry onto each gate history, and one onto the cell history or two (the first all zeros) when it was empty; the carried gradients are untouched |
| Recurrent.ForwardCellRecurrence | KelpNet/Functions/Connections/LSTM.cs:79-91 | the new step obeys the cell equations against the previous top of the cell history, or zeros on the first step (so c = a*i), with activations in range |
| Recurrent.FirstStepIgnoresLateral | KelpNet/Functions/Connections/LSTM.cs:57-73 | on a lane's first step the lateral projections do not matter |
| Recurrent.ForwardBounded | KelpNet/Functions/Connections/LSTM.cs:82-91 | the output lies within [-1, 1] and no cell value moves by more than one |
| Recurrent.AddInto | KelpNet/Functions/Connections/LSTM.cs:125-128 | adding a gradient into gh keeps its length |
| Recurrent.AddInPlace | KelpNet/Functions/Connections/LSTM.cs:125-128 | the in-place loop adds each entry of the lateral gradient into gh |
| Recurrent.Feedback | KelpNet/Functions/Connections/LSTM.cs:119-130 | the lateral feedback keeps gh's length |
| Recurrent.AddLateral | KelpNet/Functions/Connections/LSTM.cs:121-129 | adding the first n lateral gradients keeps gh's length |
| Recurrent.GateGrads | KelpNet/Functions/Connections/LSTM.cs:149-160 | the element loop yields five vectors of inputCount values |
| Recurrent.InputGradient | KelpNet/Functions/Connections/LSTM.cs:165-174 | the input gradient has inputCount values |
| Recurrent.BackwardLane | KelpNet/Functions/Connections/LSTM.cs:117-177 | a backward step leaves a well-shaped lane, gh of unchanged length and an input gradient of inputCount values |
| Recurrent.Unwind | KelpNet/Functions/Connections/LSTM.cs:132-177 | the part after the feedback leaves a well-shaped lane and an input gradient of inputCount values |
| Recurrent.BackwardPopsOneStep | KelpNet/Functions/Connections/LSTM.cs:142-147 | a backward step pops exactly one entry from each of the five histories and leaves the hidden state alone |
| Recurrent.BackwardCarriesCellGradient | KelpNet/Functions/Connections/LSTM.cs:132-159 | the carried gradient is gc[k] = (gh[k]*o[k]*(1 - tanh(c[k])^2) + old[k]) * f[k], with old zero on the first backward step |
| Recurrent.CarriedThroughForget | KelpNet/Functions/Connections/LSTM.cs:149-159 | at every position the carried gradient becomes (gh*o*GradTanh(tanh c) + old) times the forget gate |
| Recurrent.GateGradsZero | KelpNet/Functions/Connections/LSTM.cs:149-160 | zero hidden-state and carried gradients make every gradient of the element loop zero |
| Recurrent.ZeroGradientCarriesNothing | KelpNet/Functions/Connections/LSTM.cs:119-163 | with no feedback, zero gh and no carried gradient, the step carries zero gradients to the next one |
| Recurrent.BackwardUndoesForward | KelpNet/Functions/Connections/LSTM.cs:142-147 | a backward step right after a forward step restores every history (the cell history keeps the zero cell pushed onto an empty one) |
| Recurrent.LSTM.constructor | KelpNet/Functions/Connections/LSTM.cs:26-41 | a new LSTM has one cell-side lane with nothing in it and no gate histories |
| Recurrent.LSTM.InitBatch | KelpNet/Functions/Connections/LSTM.cs:180-206 | n lanes, every history empty, no hidden state, no carried gradients |
| Recurrent.LSTM.ResetState | KelpNet/Functions/Connections/LSTM.cs:103-115 | same number of lanes, every cell history empty, hidden states and carried gradients cleared, gate histories untouched |
| Recurrent.LSTM.CellLoop | KelpNet/Functions/Connections/LSTM.cs:75-91 | the element loop fills the six buffers with exactly CellStep |
| Recurrent.LSTM.GatesOf | KelpNet/Functions/Connections/LSTM.cs:50-73 | the block copies and ExtractGates yield Preactivation, using the lateral projections only when a hidden state exists |
| Recurrent.LSTM.PushStep | KelpNet/Functions/Connections/LSTM.cs:93-98 | lane b becomes Pushed of its old value and the step (one entry onto each history, the hidden state set), every other lane keeps its value, and the object stays valid |
| Recurrent.LSTM.StepOf | KelpNet/Functions/Connections/LSTM.cs:50-91 | the pre-activation buffers followed by the element loop compute exactly CellStep of Preactivation and the previous cell |
| Recurrent.LSTM.ForwardSingle | KelpNet/Functions/Connections/LSTM.cs:43-101 | lane b becomes ForwardLane of it, the output is its new hidden state, and every other lane is unchanged |
| Recurrent.LSTM.Predict | KelpNet/Functions/Connections/LSTM.cs:208-211 | Predict is ForwardSingle, with the same effect on the lanes |
| Recurrent.LSTM.AddFeedback | KelpNet/Functions/Connections/LSTM.cs:119-130 | the four lateral gradients are added into gh in place, one after the other |
| Recurrent.LSTM.GradLoop | KelpNet/Functions/Connections/LSTM.cs:137-160 | the element loop over inputCount positions yields exactly GateGrads |
| Recurrent.LSTM.UpwardGradient | KelpNet/Functions/Connections/LSTM.cs:165-174 | the four upward gradients are added position by position into the input gradient |
| Recurrent.LSTM.Gradients | KelpNet/Functions/Connections/LSTM.cs:149-174 | the element loop, RestoreGates and the upward gradients together |
| Recurrent.LSTM.PopStep | KelpNet/Functions/Connections/LSTM.cs:142-163 | one entry is popped from each history of lane b, and the carried cell gradient and the restored gate gradients are kept |
| Recurrent.LSTM.UnwindStep | KelpNet/Functions/Connections/LSTM.cs:132-177 | lane b becomes Unwind of it, the hidden state is untouched and the other lanes are unchanged |
| Recurrent.LSTM.BackwardSingle | KelpNet/Functions/Connections/LSTM.cs:117-177 | gh is updated in place by the feedback, lane b becomes BackwardLane of it, and the hidden state and other lanes are untouched |
| Activations.Standard | KelpNet/Functions/Activations/LeakyReLU.cs:18-23 | the slope defaults to 0.2 |
| Activations.Forward | KelpNet/Functions/Activations/LeakyReLU.cs:25-28 | the identity on non-negative inputs; with a positive slope the output is negative exactly when the input is |
| Activations.ForwardIsDerivativeTimesInput | KelpNet/Functions/Activations/LeakyReLU.cs:27 | the output is the derivative (slope, or 1 for positive inputs) times the input |
| Activations.ForwardIsMax | KelpNet/Functions/Activations/LeakyReLU.cs:27 | for a slope in [0, 1] the output is the larger of x and slope*x |
| Activations.ForwardPositivelyHomogeneous | KelpNet/Functions/Activations/LeakyReLU.cs:27 | scaling the input by a positive factor scales the output by it |
| Activations.OutputSignFollowsInput | KelpNet/Functions/Activations/LeakyReLU.cs:27 | for a non-negative slope the output is not positive exactly when the input is not |
| Activations.BackwardAsWritten | KelpNet/Functions/Activations/LeakyReLU.cs:30-33 | as written, the output gradient passes through where the output is positive |
| Activations.BackwardAsWrittenIgnoresGradient | KelpNet/Functions/Activations/LeakyReLU.cs:32 | as written, where the output is not positive the result is y*slope whatever gradient arrives, and 0 at y = 0 |
| Activations.BackwardAsWrittenBreaksChainRule | KelpNet/Functions/Activations/LeakyReLU.cs:32 | with slope 0.2, input -5 and output gradient 1 the rule as written returns -0.2 where the chain rule gives 0.2 |
| Activations.Backward | KelpNet/Functions/Activations/LeakyReLU.cs:30-33 | the corrected rule passes the output gradient through where the output is positive |
| Activations.BackwardIsChainRule | KelpNet/Functions/Activations/LeakyReLU.cs:32 | for a non-negative slope the corrected rule at Forward's output is the output gradient times the derivative at the input |
| Activations.BackwardLinear | KelpNet/Functions/Activations/LeakyReLU.cs:32 | the corrected rule is linear in the output gradient |

## Left out

- `Update`, `ResetState` and `SetOptimizer` of `FunctionStack` only forward the call to every unit, and the optimizers they reach are not part of this model.
- Parameter registration (`OptimizeParameter`) in the LSTM constructor is optimizer plumbing and is not modelled.
- GPU execution, the kernel source text and the `gpuEnable` flag of LeakyReLU are not modelled.
- The internals of `Linear` are not part of this model: each projection is an opaque pair of forward and backward functions with the right lengths. Its own batch state (`InitBatch` on the projections) is not modelled.
- `Math.Tanh` and `Math.Exp` are uninterpreted. Only tanh's range [-1, 1] and exp's non-negativity are assumed. Floating-point rounding is not modelled; `Real` is an exact real.
- `InitGrad`, `BackwardCountUp` and `ClearGrad` of the `Function` base class are not part of this model. Only the null check on `Grad` and the zero buffer that `ClearGrad` allocates are modelled.
- `NdArray` shapes are not modelled: a node's data is a flat sequence of reals.
- A unit's forward and derivative rules are abstract functions of the unit, not of its internal state.
- Only single-input units are modelled. The walk visits every node of a tuple, but every unit's Backward uses only the tuple's first node.
- Null references are modelled as `None` (hidden state, carried gradients) or as zero lanes: a new LSTM has no gate histories until `InitBatch`, where the source leaves those arrays null.
- Recurrent.LSTM.constructor: the source's one cell-history slot (`new Stack<double[]>[1]`) holds a null reference, while the model puts an empty history there. No operation can tell the two apart: there are no gate histories until `InitBatch`, and `InitBatch` and `ResetState` replace that slot.
- Recurrent.LSTM.ForwardSingle: `hParam[b]` is the same `NdArray` object that `ForwardSingle` returns. The model returns a copy, so later writes through that alias are not modelled.
- Recurrent.LSTM.CellLoop: the four gate buffers, `cResult` and the hidden-state buffer are local sequences rather than arrays. Each starts zeroed and is written position by position, as in the source.
- Recurrent.LSTM.GradLoop: `gcPrev[b]` is updated in place in the source. The model computes the new vector from the old one and stores it when the step ends; nobody else can observe the array in between.
- Recurrent.LSTM.BackwardSingle: requires `InputCount <= OutputCount` and enough history (two cells, one entry per gate history). Otherwise the source's indexing throws, and exceptions are not modelled.
- Gates.ExtractGates: requires every argument to hold at least as many groups of four as the first. Otherwise the source throws.
- Graph.Arena.Forward and Composition.FunctionStack.Forward: require a non-empty input tuple, and the stack requires at least one unit. The source indexes `xs[0]` and `Functions[0]` without a check.
- Composition.FunctionStack.Predict: requires at least one unit, because the source indexes `Functions[0]` without a check; the exception on an empty stack is not modelled.
- Gates.RestoreExtractRoundTrip: the routing of each gate's gradient back to the projection output that fed it holds only when InputCount equals OutputCount. The backward pass sizes its gate gradients by InputCount, while the forward layout uses blocks of OutputCount; `Gates.RoutingNeedsEqualCounts` shows the misrouting for InputCount 1 and OutputCount 2. The model keeps the source's sizes.

## Findings

| source | as written | input that shows it | evidently intended | confidence | as-written member | corrected member |
|---|---|---|---|---|---|---|
| KelpNet/Common/Functions/FunctionStack.cs:75-78 | after `y.ParentFunc.Backward(y)` the walk reads the last entry of the producer's `PrevInputs`, which that Backward has just popped | Backward from the output of a one-unit stack run once from an input node: the producer's stack is empty after the pop, so the index -1 throws | walk into the tuple the producer's Backward popped, read before the pop; then Forward followed by Backward is balanced | high (not executed) | Composition.LiteralWalkUnderflows | Composition.ForwardThenWalkBalanced |
| KelpNet/Functions/Activations/LeakyReLU.cs:32 | `y <= 0 ? y * slope : gy` returns the output scaled by the slope, ignoring the incoming gradient | slope 0.2, input -5 (output -1), output gradient 1: returns -0.2 | `gy * slope`, the chain rule | high (not executed) | Activations.BackwardAsWrittenBreaksChainRule | Activations.BackwardIsChainRule |
