# HyCC circuits, verified

HyCC compiles C to circuits for secure two-party computation. This project models the parts of it
that work on the circuits themselves and proves, for all inputs and all runs, that they do what they
are there for:

1. **Floating point as a circuit input program.** `float32_add` and `float32_mul` are correctly
   rounded additions and multiplications of IEEE 754-2008 binary32 (roundTiesToEven, section 4.3.1),
   subnormals, overflow, infinities and NaNs included. Modules `Powers`, `Shifts`, `Binary32`, `LeadingZeros`,
   `Rounding`, `Multiplication`, `Addition`, `FloatSpecials`. A value is a natural number in units of 2^-149, a product one in
   units of 2^-298, so no approximation enters the statements; the correctly rounded result is
   characterised independently of the code (`Binary32.RoundsTiesToEven`: the nearest pattern, ties to
   the even one, or infinity from the midpoint on) and shown to be unique.
2. **The parallel execution graph.** The gates of a circuit with function calls are divided into
   blocks. For every circuit whose wires and calls form no cycle the block graph has no cycle, every
   visited gate has exactly one block, a block's recorded inputs and fanins are the real ones, and
   no path leaves a block and comes back. Modules `GateGraph`, `GateDepth`, `DepthSearch`, `OutputDepths`,
   `BlockGraph`, `BlockSteps`, `CallStep`, `BlockOrder`, `GraphBuilder`, `BlockLevels`, `BlockPaths`, `OutputReach`.
3. **The SAT sweep.** Depth search with cycle detection, levelled simulation, partition refinement,
   and merging gates in place while using levels that were computed once. Modules
   `BooleanCircuit`, `LevelSearch`, `Bins`, `Simulation`, `SweepLevels`, `Candidates`, `Rewiring`, `Sweep`,
   `SweepOutcome`.
4. **The circuit copy.** The work-list traversal yields an isomorphic graph. Module `CircuitCopy`.
5. **From literals to gates.** Folding constructors and the memoising `convert_node`. Modules
   `Literals`, `NodeConversion`.
6. **From gates to ABY.** The converter to Yao, GMW and arithmetic sharings agrees with the reference
   simulation, whose operations are given by their laws on integers. Modules `Words`, `PlainSimulation`,
   `PlainLaws`, `AbyCircuit`, `Converter`.
7. **Balancing cascades.** Modules `Structurize`, `CascadeOutcome`.
8. **The specification language.** Types and integer values survive printing and parsing, written value trees of
   all kinds are read back, and tokens and numbers mean what they should. Modules `SpecLexer`, `SpecTypes`,
   `SpecValues`, `SpecValueText`, `SpecValuePrint`, `SpecTokens`, `SpecNumbers`, `SpecTrees`, `SpecLaws`.

The modules `CallExample`, `CopyExample`, `SharingExample` and `SignExample`, and the circuits at the end of
`SweepOutcome` and `CascadeOutcome`, are small circuits on which the main methods are called, so that their
hypotheses are known to be met. `Basics` holds what several components share.

Gates are numbers, and a circuit is a finite map from these numbers to gates that hold their fanins and
fanouts; the linked structures of the original are the fields of the classes here. A valuation
gives every gate a value and is *consistent* with a circuit if each gate has the value its operation
makes of its fanins. Existence and uniqueness of the consistent valuation for given inputs are
proved, so "same meaning" is the equality of functions of the inputs.

Assumed contracts of what is not modelled: the equivalence checker, asked about gates of a Boolean
circuit without cycles, is right both when it answers UNSAT and when it gives a model (`Sweep.Sound`;
`Sweep.SoundCheckerExists` shows that this can be met); `strtoull`, `std::to_string` and the character classes of
the C locale are written out as functions; each `Put...Gate` of ABY appends a gate with its
plaintext meaning; random numbers and time limits are arbitrary.

## Where the code and its intention part

Each of these is a lemma or is part of a contract below.

- An exact zero sum of two finite numbers is a zero with the sign of the second operand after the swap.
  `ZeroSum` says in which cases that is the sign section 6.3 of IEEE 754-2008 asks for, and
  `OneMinusOneIsNegativeZero` gives an operand pair for which it is not.
- `literalt::dimacs` gives variable 0 and its negation the same name. `convert_node` then returns the gate
  of variable 0 for its negation. `RightUnlessNegatedZero` shows that all literals met on the way
  get right gates if and only if the negation of variable 0 is not among them. The gate for the literal on
  top is right in that case; otherwise it may be wrong or the errors may cancel out, and
  `SignExample.ConvertBoth` converts two literals of one graph that show both.
- `structural_minimize` stops at a gate with several fanouts after having queued only its sibling, so
  that gate is missing from the new tree. `TreeIsRight` gives the exact condition, in the circuit before
  the call, under which the tree is right all the same; `StructurizeShared` is a circuit for which it is not.
- The constants bin only asks whether gates are always *false*. A gate that was true in every simulated
  round stands in ONE's bin; it is not merged, and its counterexample separates it from nothing. So the
  pass reports a change. `OneIsRefutedIff` says exactly when this happens in a pass, and
  `SweepTautology` is a circuit for which it happens in every pass. These are statements about one pass of
  the sweep: between the passes the circuit may be rewritten. A merge into ZERO alone, on the other hand,
  is not reported as a change (`UnsettledIff`).
- `get_element` derives the sign flag from the top bit for unsigned types, too. Values in the
  upper half of `uint64` are printed as negative numbers and cannot be encoded again for their own type
  (`LargestIsLost`). `to_value` writes only the whole bytes of an element, so widths that are no
  multiple of eight lose bits, and an empty value prints as a text that cannot be parsed. All other values
  survive (`PrintParseEncode`, both directions).

## Model

| member | source | states |
|---|---|---|
| LeadingZeros.LeadingZeroes | examples/float32/float32.h:98-113 | for every array length n, power of two or not, the in-place step-doubling loop returns the number of leading zero bits of an n-bit value, which bounds the value from both sides |
| LeadingZeros.CountsJoin | examples/float32/float32.h:258-273 | one inner step: joining two neighbouring blocks leaves at each block start the zero count of the block of double size |
| LeadingZeros.CountsTail | examples/float32/float32.h:258-273 | a last block without a partner already counts to the end of the array |
| Rounding.ShiftMantissaRight | examples/float32/float32.h:37-63 | shift_mantissa_right_32/64: the shifted mantissa, and a sticky bit that says whether a one was shifted out, also for counts beyond the width |
| Rounding.RoundToNearest | examples/float32/float32.h:66-93 | the bit pattern of the truncated significand, plus one exactly if the round and sticky bits say so, with the carry running into the exponent; infinity if it runs out of exponent 255 |
| Rounding.TruncationRounds | examples/float32/float32.h:66-93 | two extra bits and a sticky bit decide roundTiesToEven of the exact value |
| Rounding.DoubledRemainderTruncates | examples/float32/float32.h:197-252 | the sticky bit still suffices after a renormalising left shift by one |
| Rounding.OverflowBound | examples/float32/float32.h:215-228 | values from the overflow threshold on round to infinity |
| Binary32.RoundingIsUnique | examples/float32/float32.h:66-93 | at most one pattern is the roundTiesToEven result of a value |
| Binary32.RoundingIsExact | examples/float32/float32.h:66-93 | a representable value rounds to its own pattern |
| Multiplication.Float32Mul | examples/float32/float32.h:276-392 | on all 2^64 operand pairs: finite operands give the exact product rounded by roundTiesToEven with the product sign, including gradual underflow and overflow to infinity; NaNs and infinities as in the code |
| Multiplication.RoundProduct | examples/float32/float32.h:356-392 | the rounding of the product of two significands, from normalisation to the subnormal shift |
| Multiplication.MultiplicationCommutes | examples/float32/float32.h:276-392 | swapping two operands that are not NaN does not change the product |
| Addition.Float32Add | examples/float32/float32.h:115-252 | on all 2^64 operand pairs: finite operands give the exact sum rounded by roundTiesToEven; the sign of an exact zero sum, NaNs and infinities as in the code |
| Addition.DifferenceParts | examples/float32/float32.h:197-207 | subtracting the sticky bit gives the floor of the exact difference |
| Addition.LeftShiftTruncates | examples/float32/float32.h:229-246 | renormalising by more than one only happens without a sticky bit, so nothing is lost |
| Addition.ZeroSum | examples/float32/float32.h:207-214 | an exact zero sum is a zero, and its sign is the required one if and only if the signs agree or the second operand is positive |
| Addition.OneMinusOneIsNegativeZero | examples/float32/float32.h:207-214 | 1.0 + -1.0 is delivered as -0.0 |
| Addition.AdditionCommutes | examples/float32/float32.h:115-252 | swapping two operands that are not NaN changes at most the sign of a zero sum |
| FloatSpecials.SumIsNaN | examples/float32/float32.h:141-158 | a sum is a NaN if and only if an operand is one or infinities of opposite signs are added; it is the NaN among the operands, the first one if both are, or else a quiet NaN |
| FloatSpecials.SumIsInfinite | examples/float32/float32.h:141-158 | a sum that is no NaN is infinite if and only if an operand is or the exact sum overflows; the sign is that of the infinite operand |
| FloatSpecials.ProductIsNaN | examples/float32/float32.h:310-328 | a product is a NaN if and only if an operand is one or zero is multiplied by infinity; it is the NaN among the operands or else a quiet NaN |
| FloatSpecials.ProductIsInfinite | examples/float32/float32.h:310-328 | a product that is no NaN is infinite if and only if an operand is or the exact product overflows; its sign is the product of the signs |
| FloatSpecials.OverflowThreshold | examples/float32/float32.h:66-93 | overflow begins half way between the largest finite number and 2^128 |
| GateDepth.PathsAreBounded | src/libcircuit/parallel_execution_graph.cpp:47-118 | no backward path through gates and calls crosses more non-linear gates and calls than the depth of its end |
| GateDepth.DepthIsReached | src/libcircuit/parallel_execution_graph.cpp:47-118 | some backward path crosses exactly as many |
| GateDepth.PathCostCounts | src/libcircuit/simple_circuit.h:790-800 | what a path crosses is the number of its AND, OR and MUL gates and of its results of calls |
| DepthSearch.AssignInputCalls | src/libcircuit/parallel_execution_graph.cpp:14-28 | maps exactly the results of calls, each to its call |
| DepthSearch.DepthComputation.ComputeGateDepth | src/libcircuit/parallel_execution_graph.cpp:47-118 | terminates, returns the depth of the gate, and keeps every memoised entry right, although arguments of calls are raised to the depth of the call |
| DepthSearch.DepthComputation.ComputeCallDepth | src/libcircuit/parallel_execution_graph.cpp:56-105 | afterwards all arguments of the call have its depth and all results the next one |
| DepthSearch.DepthComputation.ComputeGateDepths | src/libcircuit/parallel_execution_graph.cpp:123-134 | afterwards every circuit output has a right entry |
| OutputDepths.AssignOutputCalls | src/libcircuit/parallel_execution_graph.cpp:30-44 | maps exactly the arguments of calls, each to its call |
| OutputDepths.ClosestOutputs.AssignClosestOutput | src/libcircuit/parallel_execution_graph.cpp:141-188 | the set for a gate is the union over its fanouts, ending in the depths of the OUTPUTs reached |
| OutputDepths.ClosestOutputs.AssignClosestOutputs | src/libcircuit/parallel_execution_graph.cpp:371-373 | from the root gates every gate gets its set |
| OutputDepths.PathContributes | src/libcircuit/parallel_execution_graph.cpp:172-186 | every OUTPUT at the end of a path contributes its depth to the set of the path's start |
| OutputDepths.ContributionHasPath | src/libcircuit/parallel_execution_graph.cpp:172-186 | every depth in the set comes from an OUTPUT at the end of some path |
| OutputDepths.OutsShrink | src/libcircuit/parallel_execution_graph.cpp:172-186 | along a wire the set of output depths can only shrink |
| GraphBuilder.ParallelExecutionGraph.GetGateBlock | src/libcircuit/parallel_execution_graph.h:268-278 | the block of the key; a new and empty one only if there was none |
| GraphBuilder.ParallelExecutionGraph.AddCallBlock | src/libcircuit/parallel_execution_graph.h:280-293 | adds the block of a call that had none, with the recorded inputs |
| GraphBuilder.ParallelExecutionGraph.AddElement | src/libcircuit/parallel_execution_graph.h:116-141 | the gate joins the block with its local depth, the height is updated, and the outside fanins become block inputs |
| GraphBuilder.CallIsNew | src/libcircuit/parallel_execution_graph.h:289-290 | the assertion that a call block was really inserted never fails |
| GraphBuilder.GraphBuilder.AssignElement | src/libcircuit/parallel_execution_graph.cpp:329-359 | keeps the graph right and gives the element its one block; elements that had a block keep it |
| GraphBuilder.GraphBuilder.AssignGate | src/libcircuit/parallel_execution_graph.cpp:286-327 | places the gate in the block keyed by the closest input depth of its fanins and its output depths |
| GraphBuilder.GraphBuilder.AssignInput | src/libcircuit/parallel_execution_graph.cpp:199-260 | circuit inputs go to the root, results of a call to the block of the call |
| GraphBuilder.GraphBuilder.AddCall | src/libcircuit/parallel_execution_graph.cpp:229-249 | adds the call block with the owners of its arguments as fanins and gives it to all results |
| GraphBuilder.GraphBuilder.AssignOutput | src/libcircuit/parallel_execution_graph.cpp:262-284 | outputs go to the leaf, which gets the owner of the fanin as fanin |
| GraphBuilder.BuildParallelExecutionGraph | src/libcircuit/parallel_execution_graph.cpp:364-385 | for every circuit whose gates and calls form no cycle: the depths and output depths used for the block keys are the true ones, each visited element has exactly one block, inputs and fanins of blocks are the real ones, all outputs are placed, and no path of blocks returns to its start |
| CallExample.BuildGraph | src/libcircuit/parallel_execution_graph.cpp:364-385 | the construction on a circuit with a call that has an argument and a result |
| CallExample.DepthOfAnd | src/libcircuit/parallel_execution_graph.cpp:56-118 | in this circuit an AND behind the call has depth 2 |
| BlockSteps.JoinKeepsBuilt | src/libcircuit/parallel_execution_graph.h:116-141 | adding a gate to its right block keeps all invariants of the graph |
| CallStep.CallKeepsBuilt | src/libcircuit/parallel_execution_graph.cpp:229-249 | adding a call block keeps all invariants of the graph |
| BlockOrder.InputDepthAtMostDepth | src/libcircuit/parallel_execution_graph.cpp:84-103 | the closest input depth of a gate's block is at most the depth of the gate |
| BlockOrder.EdgesRise | src/libcircuit/parallel_execution_graph.cpp:84-103 | every edge of the block graph goes up: root first, then by closest input depth, calls before gates, shrinking output depths, leaf last |
| BlockOrder.BlockGraphIsAcyclic | src/libcircuit/parallel_execution_graph.cpp:84-103 | hence no path through blocks comes back to where it started |
| BlockPaths.OwnersRise | src/libcircuit/parallel_execution_graph.cpp:286-327 | along any path of wires and calls everything was visited and the blocks never go down |
| BlockPaths.NoPathReenters | src/libcircuit/parallel_execution_graph.cpp:84-103 | a path of gates that ends in the block it started in never left it |
| BlockPaths.HeightIsPathMaximum | src/libcircuit/parallel_execution_graph.h:116-141 | non_linear_height is the largest number of non-linear gates on a path inside the block |
| BlockPaths.NonLinearCounts | src/libcircuit/simple_circuit.h:790-800 | the non-linear gates on a path are its AND, OR and MUL gates |
| OutputReach.EntryAtMostGates | src/libcircuit/parallel_execution_graph.cpp:47-118 | no entry of the depth search exceeds the number of gates |
| OutputReach.OutsHasLargest | src/libcircuit/parallel_execution_graph.cpp:151-186 | with fewer gates than 2^31 - 1: the largest int is in the set of a gate if and only if the gate reaches a circuit-level OUTPUT along wires |
| OutputReach.OutsHasCalls | src/libcircuit/parallel_execution_graph.cpp:151-186 | any other number is in the set if and only if the gate reaches an argument of a call of that depth |
| OutputReach.SameBlockSamePlaces | src/libcircuit/parallel_execution_graph.cpp:286-327 | of two ordinary gates in one block either both reach a circuit-level OUTPUT or neither does, and both reach arguments of calls of the same depths |
| BlockLevels.BlockDepths.ComputeBlockDepth | src/libcircuit/parallel_execution_graph.cpp:474-487 | terminates and returns the number of edges on a longest path to the block |
| BlockLevels.BlockDepths.GroupBlocksByDepth | src/libcircuit/parallel_execution_graph.cpp:498-514 | lists every block at its depth |
| BlockLevels.GroupedOnce | src/libcircuit/parallel_execution_graph.cpp:498-514 | no block stands in two places of these lists |
| BlockLevels.EdgesGoUp | src/libcircuit/parallel_execution_graph.cpp:474-487 | block depths strictly increase along edges |
| BooleanCircuit.ValuationIsUnique | src/libcircuit/simple_circuit_sweep.cpp:285-359 | a circuit without cycles has at most one consistent valuation for given inputs |
| BooleanCircuit.ValuationExists | src/libcircuit/simple_circuit_sweep.cpp:285-359 | and it has one |
| BooleanCircuit.MergeKeepsMeaning | src/libcircuit/simple_circuit_gate.cpp:222-240 | replacing a gate by an equal one that is not above it keeps the value of every gate under all inputs and makes no cycle |
| LevelSearch.LevelComputation.GetDepth | src/libcircuit/simple_circuit.cpp:26-100 | terminates on every finite graph; it throws only if a cycle can be reached, and otherwise returns the longest path length and records it |
| LevelSearch.LevelComputation.LevelOf | src/libcircuit/simple_circuit.cpp:26-100 | a call from outside throws if and only if a cycle is reachable through fanins |
| LevelSearch.LevelComputation.Levels | src/libcircuit/simple_circuit.cpp:1041-1046 | the loop over all gates succeeds if and only if no listed gate reaches a cycle, and then all levels are recorded |
| LevelSearch.DepthExcludesCycles | src/libcircuit/simple_circuit.cpp:33-40 | a gate that has a depth reaches no cycle |
| LevelSearch.DepthIsUnique | src/libcircuit/simple_circuit.cpp:26-100 | the depth is determined by the graph |
| Simulation.Simulate | src/libcircuit/simple_circuit_sweep.cpp:361-421 | level by level, all gates get the values of the consistent valuation with the given inputs |
| Simulation.LevelsHaveNoGaps | src/libcircuit/simple_circuit_sweep.cpp:361-421 | the recorded levels are exactly 1 to the size of the level set |
| Bins.SplitBin | src/libcircuit/simple_circuit.cpp:584-617 | keeps the gates with the value of the first one and splits off the others, both in order |
| Bins.RefineBins | src/libcircuit/simple_circuit.cpp:581-649 | the refined bins, and true exactly if some bin was split |
| Bins.RefinedTogether | src/libcircuit/simple_circuit.cpp:581-649 | two gates share a bin afterwards if and only if they did before and have the same value |
| Bins.RefinedWeight | src/libcircuit/simple_circuit.cpp:692-722 | each split lowers the sum of bin sizes minus one by one |
| Bins.RefinedOk | src/libcircuit/simple_circuit.cpp:581-649 | bins keep their order and have at least two gates |
| Bins.BinsAreDisjoint | src/libcircuit/simple_circuit.cpp:581-649 | no gate is ever in two bins |
| Bins.PartitionStep | src/libcircuit/simple_circuit.cpp:581-649 | one more interpretation keeps the bins the partition by agreement on all interpretations |
| Bins.NoSplitKeeps | src/libcircuit/simple_circuit.cpp:581-649 | a refinement that splits no bin leaves the bins as they were |
| Bins.UnsplitIsSame | src/libcircuit/simple_circuit.cpp:581-649 | bins that are left as they were hold gates of equal values |
| Candidates.CreateBins | src/libcircuit/simple_circuit.cpp:863-898 | the bins of all candidate gates after all stored interpretations |
| Candidates.RefineWith | src/libcircuit/simple_circuit.cpp:581-649 | one round: simulates, refines, and reports a split if and only if two gates that shared a bin have different values; without a split the bins stay |
| Candidates.DetermineStructuralRedundancy | src/libcircuit/simple_circuit.cpp:651-734 | terminates for any random inputs, even without a time limit; the stored interpretations alone account for the resulting bins, there are at most as many new ones as the initial weight, and unless time ran out the last ten rounds split nothing |
| Candidates.TogetherMeansSame | src/libcircuit/simple_circuit.cpp:651-734 | two gates share a bin if and only if they had the same value in every round |
| Candidates.DroppedGateDiffers | src/libcircuit/simple_circuit.cpp:619-645 | a gate without a bin differs from every other gate in some round |
| Candidates.ConstantsInFront | src/libcircuit/simple_circuit.cpp:863-883 | ONE and ZERO stand in front of their bins and never share one |
| SweepLevels.LevelsRise | src/libcircuit/simple_circuit.cpp:1041-1046 | the recorded levels strictly increase along every wire |
| SweepLevels.RankBoundsPaths | src/libcircuit/simple_circuit.cpp:825-861 | whatever increases along every wire bounds the length of all paths |
| Rewiring.SimpleCircuit.RemoveFanin | src/libcircuit/simple_circuit_gate.cpp:120-147 | erases the first entry for this pin from the fanouts of its driver |
| Rewiring.SimpleCircuit.AddFanout | src/libcircuit/simple_circuit_gate.cpp:52-77 | connects the wire at both ends and changes nothing else |
| Rewiring.SimpleCircuit.ReplaceBy | src/libcircuit/simple_circuit_gate.cpp:222-240 | all fanouts, and exactly these, move from one gate to the other |
| Sweep.OrderBin | src/libcircuit/simple_circuit.cpp:778-793 | the same gates sorted by level, gates of one level in their old order |
| Sweep.OnlyZeroIsMerged | src/libcircuit/simple_circuit.cpp:795-823 | a gate of a constants bin that is found to be never true is in ZERO's bin and equal to ZERO |
| Sweep.Sweeper.AreEquivalent | src/libcircuit/simple_circuit_sweep.cpp:157-190 | yes only for gates equal under all inputs; otherwise an interpretation under which they differ; asked about listed gates |
| Sweep.Sweeper.CheckGate | src/libcircuit/simple_circuit_sweep.cpp:13-25 | yes only for gates that are never true; otherwise an interpretation that tells the gate from ZERO |
| Sweep.Sweeper.ProcessConstantsBin | src/libcircuit/simple_circuit.cpp:795-823 | either one counterexample is stored or the whole bin is merged into ZERO; ONE's bin never merges and always gives a counterexample |
| Sweep.Sweeper.ProcessRegularBin | src/libcircuit/simple_circuit.cpp:825-861 | keeps the meaning of the circuit and the levels rising; either a counterexample that separates two gates of the bin is stored or all gates are merged into one of the lowest level |
| Sweep.Sweeper.ProcessBin | src/libcircuit/simple_circuit.cpp:900-926 | dispatches on the front gate and touches no fanouts outside the bin |
| Sweep.Sweeper.ProcessBins | src/libcircuit/simple_circuit.cpp:1067-1084 | at the end each bin has either its stored counterexample or is still merged, whatever happened in the other bins |
| Sweep.MinimizePass | src/libcircuit/simple_circuit.cpp:1041-1084 | fails only on circuits with a cycle; otherwise the levels computed once at the start rise along every wire at the end, the circuit means what it meant, the interpretations behind the bins are among those stored, every bin was dealt with, and a change is reported if and only if some bin was not ZERO's or got a counterexample |
| Sweep.PassKeepsValues | src/libcircuit/simple_circuit.cpp:1041-1084 | after a pass every gate, and so every OUTPUT, has the value it had under every input |
| Sweep.PassKeepsLevels | src/libcircuit/simple_circuit.cpp:825-861 | after a pass there is no cycle and no gate is deeper than its recorded level |
| Sweep.SeparatedGatesPart | src/libcircuit/simple_circuit.cpp:844-857 | a stored counterexample keeps its two gates in different bins in every later round |
| Sweep.SoundCheckerExists | src/libcircuit/equivalence_checker.h:22-36 | the assumption about the solver can be met: there is one that is right on all gates of all Boolean circuits without cycles |
| SweepOutcome.OneIsRefutedIff | src/libcircuit/simple_circuit.cpp:795-823 | in a pass that is not cut short ONE's bin gets a counterexample if and only if some listed gate was true in every simulated round |
| SweepOutcome.AlwaysTrueNeverSettles | src/libcircuit/simple_circuit.cpp:795-823 | in particular, a pass over a circuit with a gate that is always true finds a counterexample and reports a change |
| SweepOutcome.UnsettledIff | src/libcircuit/simple_circuit.cpp:1067-1084 | a pass that is not cut short reports a change if and only if two candidates agreed in every round without being false throughout, or a gate that was false throughout is not always false |
| SweepOutcome.SweepTautology | src/libcircuit/simple_circuit.cpp:1041-1084 | on the circuit x OR NOT x every pass that is not cut short reports a change, for all random inputs and all models of the solver |
| SweepOutcome.TautologyCanBeSwept | src/libcircuit/simple_circuit.cpp:1041-1084 | for this circuit there are a solver and stored inputs as the pass needs them |
| SweepOutcome.EqualGatesAreMerged | src/libcircuit/simple_circuit.cpp:825-861 | the pass misses nothing: two gates that are equal under all inputs share a bin, and unless that bin got a counterexample one of them has no fanouts left |
| SweepOutcome.AlwaysFalseIsMerged | src/libcircuit/simple_circuit.cpp:795-823 | a gate that is always false has no fanouts left unless ZERO's bin got a counterexample |
| CircuitCopy.CopyConstruction.Copy | src/libcircuit/simple_circuit.cpp:213-265 | copies everything reachable from the roots to an isomorphic graph: each gate once, each wire once with both pins, ONE to ONE and ZERO to ZERO |
| CircuitCopy.CopyConstruction.CopyFanout | src/libcircuit/simple_circuit.cpp:239-263 | one round of the inner loop: the target is translated if it was not, and its one wire is added |
| CircuitCopy.CopyConstruction.CopyGateOnly | src/libcircuit/simple_circuit.cpp:448-467 | a new gate with the same data and no wires |
| CircuitCopy.SlotIsEmpty | src/libcircuit/simple_circuit_gate.cpp:52-77 | add_fanout always finds the slot empty |
| CircuitCopy.CopyComputesTheSame | src/libcircuit/simple_circuit.cpp:213-265 | whatever the operations mean, the copies have the values of the gates they were copied from |
| CopyExample.CopyTautology | src/libcircuit/simple_circuit.cpp:213-265 | the copy of the circuit x OR NOT x |
| Literals.CircuitCreator.NewVariable | src/cbmc-gc/circuit_creator_default.h:175-186 | a literal whose meaning is the new input |
| Literals.CircuitCreator.NewNode | src/cbmc-gc/circuit_creator_default.h:225-233 | one new node for the operation; no other literal changes its meaning |
| Literals.CircuitCreator.LAnd | src/cbmc-gc/circuit_creator_default.h:55-74 | the conjunction, with all folding cases |
| Literals.CircuitCreator.LOr | src/cbmc-gc/circuit_creator_default.h:76-95 | the disjunction, with all folding cases |
| Literals.CircuitCreator.LXor | src/cbmc-gc/circuit_creator_default.h:132-148 | the exclusive disjunction, with all folding cases |
| Literals.CircuitCreator.LSelect | src/cbmc-gc/circuit_creator_default.h:170-173 | if a then b else c |
| Literals.CircuitCreator.LEqual | src/cbmc-gc/circuit_creator_default.h:160-163 | equality |
| Literals.CircuitCreator.LImplies | src/cbmc-gc/circuit_creator_default.h:165-168 | implication |
| Literals.CircuitCreator.LAndAll | src/cbmc-gc/circuit_creator_default.h:97-110 | the conjunction of a list, true for the empty one |
| NodeConversion.Conversion.ConvertNode | src/cbmc-gc/circuit_creator_default.h:293-363 | terminates and returns a gate labelled with the literal; it fails if and only if some input below has no gate; every cached literal keeps a gate that spells it |
| NodeConversion.Conversion.CreateGate | src/cbmc-gc/circuit_creator_default.h:318-340 | the gate is the first one in its role |
| NodeConversion.Conversion.AddInput | src/cbmc-gc/circuit_creator_default.cpp:9-23 | an input variable gets its gate before the conversion |
| NodeConversion.ConvertedGateValue | src/cbmc-gc/circuit_creator_default.h:293-363 | in every run the returned gate has the value of the literal, read with one name for variable 0 and its negation |
| NodeConversion.ConvertedGateIsRight | src/cbmc-gc/circuit_creator_default.h:293-363 | that is the value of the literal itself unless the negation of variable 0 is met |
| NodeConversion.ConvertedIsCircuit | src/cbmc-gc/circuit_creator_default.h:293-363 | between conversions the gates are a Boolean circuit with every wire recorded at both ends, and without cycles |
| NodeConversion.ConvertedLiteral | src/cbmc-gc/circuit_creator_default.h:293-363 | in every consistent valuation of that circuit the gate has the value of the literal, unless the negation of variable 0 is met |
| SignExample.BothMeetTheSign | src/cbmc-gc/circuit_creator_default.h:293-363 | both literals of the example have the negated variable 0 below them, so the condition for all literals does not decide the one on top |
| SignExample.WrongAndRight | src/cbmc/src/solvers/prop/literal.h:116-124 | of two literals above the negated variable 0, one is read wrongly for all inputs and the other rightly for all inputs |
| SignExample.ConvertBoth | src/cbmc-gc/circuit_creator_default.h:293-363 | a run that converts both: in every consistent valuation one gate is wrong and the other right |
| NodeConversion.RightUnlessNegatedZero | src/cbmc/src/solvers/prop/literal.h:116-124 | all literals below are right if and only if the negation of variable 0 is not among them |
| NodeConversion.NegatedZeroIsWrong | src/cbmc/src/solvers/prop/literal.h:116-124 | the negation of variable 0 is converted to variable 0, which is wrong for all inputs |
| NodeConversion.LabelValuesRun | src/cbmc-gc/circuit_creator_default.h:293-363 | giving each gate the value of its label is a consistent run |
| NodeConversion.AtMostOneGatePerNode | src/cbmc-gc/circuit_creator_default.h:293-363 | there are never more gates than nodes, and never more NOTs than variables |
| Words.AddIsModular | aby-hycc/hycc_adapter.cpp:307-318 | a 64-bit sum with its unused bits cleared is the sum modulo 2^width |
| Words.SubIsModular | aby-hycc/hycc_adapter.cpp:307-318 | likewise for the difference |
| Words.MulIsModular | aby-hycc/hycc_adapter.cpp:307-318 | likewise for the product |
| PlainSimulation.Traversal.VisitAll | src/libcircuit/simple_circuit.h:682-708 | the traversal lists everything below the outputs with fanins first |
| PlainSimulation.SimulateGate | aby-hycc/hycc_adapter.cpp:325-421 | each pin gets what the operation makes of the values of the fanins |
| PlainSimulation.CombineBits | aby-hycc/hycc_adapter.cpp:321-426 | bit i of the combined number is operand i |
| PlainSimulation.SplitNumber | aby-hycc/hycc_adapter.cpp:321-426 | pin i carries bit i |
| PlainSimulation.Simulate | aby-hycc/hycc_adapter.cpp:321-426 | on a topological order every endpoint gets its value, defined by recursion along the wires |
| PlainLaws.SubtractionIsUndone | aby-hycc/hycc_adapter.cpp:307-318 | a difference of two numbers below 2^w is below 2^w, and adding the second operand gives the first one modulo 2^w |
| PlainLaws.AdditionLaw | aby-hycc/hycc_adapter.cpp:325-421 | the value at an ADD is the sum of its operands modulo 2^width |
| PlainLaws.SubtractionLaw | aby-hycc/hycc_adapter.cpp:325-421 | the value at a SUB is the number below 2^width that gives the first operand when the second is added |
| PlainLaws.MultiplicationLaw | aby-hycc/hycc_adapter.cpp:325-421 | the value at a MUL is the product of its operands modulo 2^width |
| PlainLaws.NegationLaw | aby-hycc/hycc_adapter.cpp:325-421 | the value at a NEG is the number below 2^width that gives 0 when the operand is added |
| PlainLaws.BooleanLaws | aby-hycc/hycc_adapter.cpp:325-421 | AND, OR and XOR in terms of products and sums of bits |
| PlainLaws.NotLaw | aby-hycc/hycc_adapter.cpp:325-421 | the value at a NOT is one minus its operand |
| PlainLaws.CombineLaw | aby-hycc/hycc_adapter.cpp:325-421 | bit i of the value at a COMBINE is operand i, and there are no other bits |
| PlainLaws.SplitLaw | aby-hycc/hycc_adapter.cpp:325-421 | the value at pin i of a SPLIT is bit i of its operand |
| PlainLaws.SplitUndoesCombine | aby-hycc/hycc_adapter.cpp:325-421 | a SPLIT behind a COMBINE gives the operands of the COMBINE |
| PlainLaws.SourceLaws | aby-hycc/hycc_adapter.cpp:325-421 | INPUT and CONST have their own values, ONE is 1, and OUTPUT passes its operand on |
| Converter.CircuitConverter.GetAbyGate | aby-hycc/circuit_converter.h:406-439 | a wire that carries the endpoint's value in the sharing asked for, converted or created on the way if needed |
| Converter.CircuitConverter.CreateInput | aby-hycc/circuit_converter.h:441-459 | an input gate for the sharing, recorded for the endpoint |
| Converter.CircuitConverter.MapGate | aby-hycc/circuit_converter.h:401-404 | the entries of the other sharings stay |
| Converter.CircuitConverter.PutOr | aby-hycc/circuit_converter.h:157-301 | (a AND b) XOR (a XOR b) carries the value of the OR gate |
| Converter.CircuitConverter.ConvertCombine | aby-hycc/circuit_converter.h:157-301 | the arithmetic wire carries the number with the bits in the simulation's order |
| Converter.CircuitConverter.ConvertSplit | aby-hycc/circuit_converter.h:157-301 | every pin gets a wire with its bit |
| Converter.CircuitConverter.ChooseSharingForCombine | aby-hycc/circuit_converter.h:492-517 | GMW if and only if an INPUT is among the fanins or no more fanins are recorded for Yao than for GMW |
| Converter.CircuitConverter.ChooseSharingForSplit | aby-hycc/circuit_converter.h:157-301 | the sharing of the first fanout that is not arithmetic, or Yao if there is none |
| Converter.CircuitConverter.SetSharing | aby-hycc/circuit_converter.h:58-63 | Yao if the old or the new sharing is, otherwise GMW |
| Converter.CircuitConverter.Convert | aby-hycc/circuit_converter.h:157-301 | throws exactly on NEG; otherwise every recorded wire still carries the value of its endpoint, and the gate's pins have wires |
| Converter.ConvertAndSimulate | aby-hycc/circuit_converter.h:303-340 | on every well-shared circuit without NEG the wires of all outputs carry what simulate computes, which is the value of the output in the circuit |
| SharingExample.ConvertSum | aby-hycc/circuit_converter.h:157-301 | on a circuit with a COMBINE, an ADD and a SPLIT, for all inputs: the conversion goes through, the wires carry what simulate computes, and that is the sum modulo 4 |
| Structurize.PairUpKeepsFold | src/libcircuit/simple_circuit_structurizing.cpp:56-74 | a round of pairs with a neutral element added keeps the fold |
| Structurize.RoundsIsLogarithm | src/libcircuit/simple_circuit_structurizing.cpp:56-74 | the number of rounds is the logarithm of the number of operands, rounded up |
| Structurize.Structurizer.FindGate | src/libcircuit/simple_circuit_rewriting.cpp:342-355 | a gate that is found combines the two gates |
| Structurize.Structurizer.CreateThisGate | src/libcircuit/simple_circuit_rewriting.cpp:241-254 | a combination of the two gates, reused or new; nothing else changes |
| Structurize.Structurizer.Collect | src/libcircuit/simple_circuit_structurizing.cpp:31-52 | the walk as a recursive function; fold(list) op value(act_gate) is the value of the gate; the list alone is complete if and only if every gate of the cascade has one fanout |
| Structurize.Structurizer.BuildTree | src/libcircuit/simple_circuit_structurizing.cpp:56-74 | the root has the value of the fold, at most Rounds(n) levels above the operands, and does not depend on the gate |
| Structurize.Structurizer.StructuralMinimize | src/libcircuit/simple_circuit_structurizing.cpp:31-77 | changes the circuit if and only if the walk down the cascade found more than three operands; then the tree takes over the gate's fanouts, makes no cycle, has at most Rounds(n) levels above the operands also afterwards, and keeps the meaning whenever its root equals the gate |
| Structurize.DroppedGateMatters | src/libcircuit/simple_circuit_structurizing.cpp:37-52 | if the walk met a gate with other fanouts, the tree is right under exactly those inputs under which that gate makes no difference |
| CascadeOutcome.TreeIsRight | src/libcircuit/simple_circuit_structurizing.cpp:31-77 | the tree equals the gate if and only if the walk was complete, or the gate where it stopped makes no difference to the fold of the operands in the circuit before the call |
| CascadeOutcome.StructurizeShared | src/libcircuit/simple_circuit_structurizing.cpp:37-77 | on a concrete cascade of four operands above a shared gate the call goes through and the circuit means something else afterwards |
| CascadeOutcome.DifferenceShows | src/libcircuit/simple_circuit_structurizing.cpp:75-76 | inputs under which the operands fold to another value than the gate has give the tree another value, too |
| SpecLexer.ParseState.Next | src/libcircuit/runner.cpp:292-340 | moves to the next token exactly as the lexing function says, or fails |
| SpecLexer.PrintedNumber | src/libcircuit/runner.cpp:365-379 | every number of 64 bits is read back as it was printed |
| SpecNumbers.WrittenNumber | src/libcircuit/runner.cpp:365-379 | a number in decimal, octal or hexadecimal notation, with digits of either case and with or without a minus sign, is read as that number if it has 64 bits and refused otherwise |
| SpecTokens.LongSymbols | src/libcircuit/runner.cpp:262-276 | the tokens of the operators and the separator, of which = is a prefix of == |
| SpecTokens.ShortSymbols | src/libcircuit/runner.cpp:262-276 | the tokens of brackets and punctuation |
| SpecTokens.Words | src/libcircuit/runner.cpp:306-335 | the five words with a kind of their own; every other word is an identifier |
| SpecTokens.LineCommentIsSkipped | src/libcircuit/runner.cpp:209-217 | a line comment is skipped up to the end of the line |
| SpecTokens.BlockCommentIsSkipped | src/libcircuit/runner.cpp:218-232 | a block comment is skipped up to its first end mark |
| SpecTokens.OpenCommentFails | src/libcircuit/runner.cpp:218-232 | a block comment without an end mark is an error |
| SpecTypes.TypeToString | src/libcircuit/type.cpp:7-42 | dimensions are appended and the leaf is put in front of the output |
| SpecTypes.DoParseType | src/libcircuit/runner.cpp:419-469 | advances the state as the parsing function says, or fails |
| SpecTypes.RoundTrip | src/libcircuit/runner.cpp:396-469 | parsing the printed form of any type gives the type back and leaves nothing over, for arbitrarily nested arrays and structs |
| SpecTypes.PrintingIsInjective | src/libcircuit/type.cpp:7-42 | different types print differently |
| SpecTypes.PrintAndParse | src/libcircuit/type.cpp:44-56 | printing with the code's printer and reading with its parser returns the type |
| SpecLaws.PrintedTypes | src/libcircuit/type.cpp:7-42 | the printed names of the leaf types, an array of arrays with the outer dimension first, and a struct |
| SpecLaws.ToIntIsModular | src/libcircuit/runner.cpp:419-430 | the conversion of a dimension to int keeps its value modulo 2^32 |
| SpecValues.LessIsLess | src/libcircuit/runner.h:225-231 | comparing flags and 64-bit patterns compares the numbers |
| SpecValues.RepresentableIsInRange | src/libcircuit/runner.cpp:38-65 | a number is representable if and only if it is in the range of the type |
| SpecValues.ExtractBits | src/libcircuit/utils.h:746-771 | for every offset and every count from 0 to 64: the bits of the little-endian number that the bytes spell |
| SpecValues.SignExtend | src/libcircuit/utils.h:713-720 | the sign is carried through all 64 bits |
| SpecValues.GetElement | src/libcircuit/runner.h:341-351 | for every width up to 64: the element with its flag, which is the top bit for unsigned types, too |
| SpecValues.NumberRoundTrip | src/libcircuit/runner.h:279-285 | a printed number is read back with its value; the flag survives only if it printed as negative |
| SpecValues.ElementRepresentable | src/libcircuit/runner.cpp:38-65 | for every width up to 64: the element read back is representable if and only if it is not in the upper half of uint64 |
| SpecValues.ElementBytes | src/libcircuit/runner.h:1254-1266 | for every width up to 64: sign extension, printing and reading back do not change the whole bytes of the element |
| SpecValues.BytesOfBits | src/libcircuit/utils.h:746-771 | the bytes of an element of whole bytes are those where it was read |
| SpecLaws.LowestByteFirst | src/libcircuit/utils.h:746-771 | the first byte is the lowest one of the number that bytes spell |
| SpecLaws.ElementIsTwosComplement | src/libcircuit/runner.h:341-351 | for every width up to 64: an element of a signed type is its bits as a two's complement number, one of an unsigned type keeps its bits |
| SpecValues.LargestIsLost | src/libcircuit/runner.h:341-351 | the largest uint64 is printed as -1, which is not representable by its type |
| SpecValueText.DoParseValue | src/libcircuit/runner.cpp:473-517 | advances the state as the parsing function says, or fails |
| SpecNumbers.WrittenValue | src/libcircuit/runner.cpp:473-517 | a number in any notation, with or without a minus sign, is a value text of that number |
| SpecNumbers.ParseWritten | src/libcircuit/runner.cpp:473-517 | parse_value on such a text returns the number |
| SpecTokens.BooleanWords | src/libcircuit/runner.cpp:511-514 | the text true is the Boolean value true, and the text false is false |
| SpecTokens.ParseBoolean | src/libcircuit/runner.cpp:511-514 | parse_value on these texts returns the Boolean value |
| SpecTrees.TreeRoundTrip | src/libcircuit/runner.cpp:473-517 | for every value tree of integers, Booleans, arrays with elements and structs with plain member names, nested in any way: parsing its text gives the tree and leaves nothing over |
| SpecTrees.EmptyArrayKeepsBracket | src/libcircuit/runner.cpp:476-490 | an array without elements is read, but its closing bracket is left over |
| SpecValueText.ParsePrintedValue | src/libcircuit/runner.cpp:473-517 | parsing the printed form of a nested array gives the tree of its elements |
| SpecValueText.Encode | src/libcircuit/runner.h:1330-1341 | appends the bytes of the value, or fails if it does not fit the type |
| SpecValueText.ValueRoundTrip | src/libcircuit/runner.h:1254-1266 | encoding what was parsed gives the whole bytes of the elements if no element is in the upper half of uint64, and fails otherwise |
| SpecValuePrint.PrintDim | src/libcircuit/runner.h:569-597 | the printed form of the elements, and the index behind them |
| SpecValuePrint.PrintTyped | src/libcircuit/runner.h:621-632 | the printed form of the elements, or a fixed text if the value is empty |
| SpecValuePrint.WrittenIsDataIff | src/libcircuit/runner.h:1254-1266 | the whole bytes of the elements are the data if and only if the width is a multiple of eight |
| SpecValuePrint.PrintParseEncode | src/libcircuit/runner.h:569-597 | operator<<, parse_value and to_value in a row go through if and only if there are elements and none is in the upper half of uint64; then they return the original bytes if and only if the width of the elements is a multiple of eight |

## Left out

Representation:

- Pointers: gates and blocks have ids, and a circuit is a map from ids to gates; freeing memory is not modelled.
- 32-bit and 64-bit C integers are naturals below 2^32 and 2^64 with masks and shifts as arithmetic; ids and counters are unbounded, so the overflow of 32-bit ids is not modelled.
- LUT gates, and the branches for them in the depth search and in the gate functions.
- Asserts of the original are preconditions or proved where they are named above. The assertion in simulate that a gate has no value yet would fail for ZERO if a listed gate reads it; it is not modelled.
- Exceptions are result values; what is thrown away with them (partial state) is not described.

Parallel execution graph:

- reduce_fanins, merging and comparing graphs, and the export to dot and other formats.
- The order of the lists in group_blocks_by_depth follows the iteration order of hash maps and is arbitrary.

Sweep and copy:

- MinimizePass: models the SAT part of one round of minimize; rewriting, cleanup, clustering, statistics and the choice of rounds around it are left out.
- RemoveFanin: the slot keeps its old content instead of a null pointer until add_fanin fills it again.
- AreEquivalent: the SAT solver is a function with an assumed contract; the flag was_checked_for_being_constant is left out.
- Copy: the variables and the function calls of the copy constructor are left out; the returns of a call are stored among its arguments there.

Literals:

- ConvertNode: numbers of nodes are below 2^31 - 1; the order of the two insertions into the cache for negated literals is not observable.
- CircuitCreator: the disjunction of a list, and the scopes that are only used for drawing.

ABY:

- ABY itself: secret sharing, networking and scheduling; each gate of ABY has its plaintext meaning.
- GetAbyGate: conversions between Yao and GMW are not recorded, as the source writes them into a local copy.
- Convert: get_sharing for a SPLIT without a sharing of its own is left out, since update_sharing_kind sets one for each.
- VisitAll: the traversal on circuits with a cycle, which throws.
- replace_input_combiners, and loading circuits from files.

Cascades:

- CreateThisGate: the bookkeeping of the linked list of gates.
- The removal of gates without fanouts by cleanup, and the other rewriting rules.

Specification language:

- Next: positions in the source text are left out, which are only used for messages.
- PrintDim: bool, bits and struct values. print_dim finds a member of a struct at its index times its own width, so it reads the wrong bits as soon as two members have different widths.
- PrintParseEncode: the same; in a value of bool the elements are written bit by bit, and write_byte at an offset that is not a multiple of eight shifts the carried part by the wrong amount.
- ParsePrintedValue: the same, and dimensions of length 0, which are printed only where the value as a whole is empty and then not as an array.
- ValueRoundTrip: the same as ParsePrintedValue.
- TreeRoundTrip: arrays without elements, whose closing bracket stays behind (`EmptyArrayKeepsBracket`), and member names that are no plain identifiers.
- Encode: the same as PrintParseEncode.
- ExtractBits: a start behind the last byte with a count of 0, for which the source reads past the end.
- PrintTyped: the same as PrintDim.
- RoundTrip: member names are assumed to lex as plain identifiers, as the language has no other names.
- Expressions, statements and domains of the specification language.
