# RustTorch: the model compiler, the collective protocol and their neighbours, verified

This project models in Dafny two linked parts of RustTorch and proves what they are for.

**The model compiler** (`src/graph`, `src/deployment`). A builder makes a named dataflow graph. Dead-node
elimination and shape propagation rewrite it, `Model::from_graph` lowers it to a versioned single-assignment
program with nested conditionals, and programs are validated, evaluated, typed symbolically, exported to ONNX
and PT2 and imported again. State tensors are strided views over shared storage.

**The distributed protocol** (`src/distributed`). Ranks exchange frames over FIFO streams with a coordinator,
sequence numbers and permanent failure; on it run replicated gradient synchronisation, sharded training and
sharded checkpoints.

Two smaller state machines complete it: restoring a checkpoint into aliased tensors (`src/checkpoint.rs`) and
the plateau scheduler (`src/optim/schedulers.rs`).

## How it is modelled

A tensor is an element type, a shape and a map from index tuples to elements; an element is a whole number or
the bits of a floating-point value. `Tensors.Kernels` holds the arithmetic on elements (addition,
multiplication, inner product, activations, losses, conversion) and the promotion of element types as arbitrary
functions, each given the element types at hand, so the theorems hold whatever the rounding. Two assumptions
remain: an element of a matrix product is a function of one row and one column, and a linear layer is that
product followed by the addition of its bias. Outcomes distinguish `Failed`, an error the source reports, from
`Stuck`, a lookup the source would panic on; validated programs are never stuck.

The protocol is a state machine whose steps are the calls of one rank, the arrival of one frame, the
computation at the coordinator, one reply, and a failure of any rank at any moment (`Fail`), which stands for
timeouts, lost peers and malformed frames. Runs are arbitrary sequences of steps over any number of ranks.
Fault-free execution of rank programs is a special case (`Lockstep.DriveIsRun`), from any settled state of the
group (`Resuming`) and for programs that follow one another without a pause (`Chaining`).

Loops of the source are methods with invariants, proved equal to specification functions about which the
lemmas speak; the graph builder, the optimizer and the plateau scheduler are classes; the two graph passes and
the storage copies update arrays, and a loaded model owns one array per storage.

| Modules | Subject |
|---|---|
| `Tensors`, `Programs`, `Validation` | programs, guards, evaluation, scoping |
| `InferSpecs`, `KernelLaws` | symbolic shape inference, algebraic laws of the kernels |
| `Onnx`, `OnnxRoundTrip`, `OnnxMeaning`, `OnnxTheorems`, `OnnxWitness`, `FreshNames` | ONNX export and import |
| `Pt2Trees`, `Pt2Operators`, `Pt2`, `Pt2RoundTrip`, `Pt2Witness` | PT2 export and import |
| `Graphs`, `DeadNodes`, `GraphExecution`, `Lowering`, `Pipeline`, `Names` | graphs, scheduling, elimination, execution, lowering |
| `SpecInference`, `ConcatShapes`, `ShapePropagation`, `GraphBuilding` | builder and shape propagation |
| `Collectives`, `ProcessGroup`, `CollectiveSafety` | tensor collectives and protocol safety |
| `CollectivePrograms`, `Chaining`, `Lockstep`, `Resuming`, `RoundResults` | fault-free runs of rank programs, one after the other |
| `Stranding` | rank programs that do not stay together, with crashes and timeouts |
| `ReplicatedTraining`, `ReplicaSetup` | gradient synchronisation, construction of the replicas |
| `Sharding`, `ShardedTraining`, `ShardedCollectives`, `Checkpoints` | sharding, sharded training, consolidation |
| `ShardedSteps`, `ShardedRuns`, `ShardedRefinement`, `ShardedWitness` | sharded training steps on the process group |
| `Views`, `Snapshots`, `LiveModels`, `Restoring`, `Plateau` | storage views, snapshots, restore, the scheduler |

## Where the code differs from what one would expect

- An ONNX export can be rejected by the importer although the model is valid: the importer records the first
  operand's rank for a sum (src/deployment/onnx.rs:679-681), so a scalar first operand makes a later matrix
  product fail. `OnnxTheorems.ReimportExactly` gives the exact condition, `OnnxWitness` a concrete model.
- A PT2 export can be rejected when an operation is named like a state placeholder, since only input names are
  checked against placeholders (src/deployment/pt2.rs:816-821), or when wrapping the input tree takes it over
  the depth limit. `Pt2RoundTrip.ReimportIff` gives the exact condition, `Pt2Witness` a concrete model for each cause.
- Concatenation skips an empty vector operand of any rank, but the inferred spec takes the rank of the first
  operand (src/graph/mod.rs:1504-1575). `ConcatShapes.ConcatConformsIff` and `ShapePropagation.PropagationSound`
  say exactly when inferred shapes hold.
- In a sharded training step four kinds of local call are not agreed on: making a gathered parameter whole
  (src/distributed/training.rs:654-656), tracking it (675), reading the loss (679) and cutting a gradient
  (696-698). A rank where one fails returns an error and leaves its group alive while the others wait.
  `ShardedSteps.AlignedIffNeverAlone` gives the exact condition for the ranks to stay together,
  `ShardedRuns.LeftAlone` what happens otherwise, `ShardedWitness` a concrete step.
- With a relative threshold and a negative best metric, a worse metric counts as an improvement
  (src/optim/schedulers.rs:424-435): `Plateau.ImprovementIsBetterIff`.

## Model

| member | source | states |
|---|---|---|
| `Programs.GuardsAreExact` | src/deployment/mod.rs:947-984 | The input check accepts exactly the inputs for which some valuation of the symbols gives every dimension its size within its bounds, and it returns such a valuation |
| `Programs.Evaluate` | src/deployment/mod.rs:999-1057 | The evaluation loop computes the environment of the program semantics, on every input and at every nesting |
| `Validation.ValidateProgram` | src/deployment/mod.rs:260-370 | The validation loop, with its node budget threaded through nested branches, accepts exactly the valid programs and returns the budget spent |
| `Validation.ScopeOf` | src/deployment/mod.rs:273-364 | In a valid program every result name is new, every operand is defined earlier, and arities fit: the names in scope are state, inputs and earlier results |
| `Validation.NeverStuck` | src/deployment/mod.rs:985-1057 | A validated program never looks up a missing name, operand index or branch output, whatever the inputs and however deep the conditionals |
| `Validation.FinalEnvironmentSolves` | src/deployment/mod.rs:999-1057 | The final environment of a successful run satisfies the defining equation of every input, state value and operation |
| `Validation.FinalEquation` | src/deployment/mod.rs:1013-1055 | Every single operation holds in the final environment: nothing computed later overwrote its operands or result |
| `Validation.ConditionalSolves` | src/deployment/mod.rs:1029-1051 | In the final environment a conditional denotes the only output of the branch its predicate selects, and the environment of that branch solves the equations of the branch |
| `Validation.SolutionIsUnique` | src/deployment/mod.rs:999-1057 | Any environment that satisfies the equations is the one the run computes: each name denotes one value |
| `InferSpecs.InferredShapeIsRuntimeShape` | src/deployment/mod.rs:1139-1303 | For every operator, whenever the symbolic rule succeeds and operands have their symbolic shapes, the kernel meets no shape error and the result has the inferred shape |
| `InferSpecs.ProductSound` | src/deployment/mod.rs:1093-1128 | The symbolic product of dimensions is the element count under every valuation |
| `InferSpecs.ReshapeSound` | src/deployment/mod.rs:1226-1265 | A reshape whose symbolic sizes balance is accepted at run time, the -1 entry receiving the symbolic quotient |
| `InferSpecs.CatSound` | src/deployment/mod.rs:1266-1290 | Concatenation gives the symbolic shape, including its summed axis |
| `InferSpecs.InferenceSound` | src/deployment/mod.rs:1060-1303 | If inference succeeds and one example run succeeds, then on every accepted input every prefix of the program runs and every value has its inferred shape under the symbols bound by that input |
| `InferSpecs.AcceptedInputsRun` | src/deployment/onnx.rs:773-791 | A program that passed the export checks succeeds on an input exactly when some valuation of the symbols explains that input |
| `KernelLaws.LinearIsMatmul` | src/deployment/onnx.rs:828-861 | A bias-free linear layer equals multiplication by the transposed weight |
| `KernelLaws.LinearIsMatmulAdd` | src/deployment/onnx.rs:828-861 | A biased linear layer equals transpose, matrix product and broadcast addition |
| `KernelLaws.TransposeIsPermute` | src/deployment/onnx.rs:891-907 | A transposition equals the permutation that swaps its two axes, negative axes included |
| `FreshNames.DecimalInjective` | src/deployment/onnx.rs:808-815 | Distinct serial numbers are spelled differently |
| `FreshNames.Fresh` | src/deployment/onnx.rs:808-815 | The search for an unreserved numbered name ends, and its result is not reserved |
| `OnnxMeaning.FreshNamesAreNew` | src/deployment/onnx.rs:806-861 | The names an export invents never capture a program name, and those given to values never collide with those given to constants |
| `OnnxMeaning.LoweredNodeRuns` | src/deployment/onnx.rs:816-915 | Running the nodes an operation is lowered to, in an environment that extends the original one, computes the original result and changes no original name |
| `OnnxMeaning.LoweredRun` | src/deployment/onnx.rs:806-915 | The lowered operations of every prefix bind every original name to its original value, on every accepted input |
| `Onnx.SaveModel` | src/deployment/onnx.rs:761-925 | The exporter, an example run, the lowering loop and shape inference, gives the exported graph of the specification, or an error |
| `Onnx.LoadModel` | src/deployment/onnx.rs:429-740 | The importer, its checks, the loop over nodes and validation, gives the program and constants of the specification, or an error |
| `OnnxRoundTrip.RecordPlain` | src/deployment/onnx.rs:657-681 | Importing an unsplit operation succeeds exactly when its recorded rank exists, and records that rank |
| `OnnxRoundTrip.RecordLinear` | src/deployment/onnx.rs:657-681 | Importing the two or three nodes of a linear layer succeeds exactly when the recorded operand rank is nonzero, and records its result rank |
| `OnnxTheorems.LoweredIsValid` | src/deployment/onnx.rs:688-740 | The re-imported program validates exactly when it fits the node limit |
| `OnnxTheorems.ReimportExactly` | src/deployment/onnx.rs:502-740 | An export can be imported again exactly when no matrix product has an operand whose recorded rank is zero and the limits hold; the import is then the lowered program with its constants |
| `OnnxTheorems.ReimportedMeansTheSame` | src/deployment/onnx.rs:806-915 | Whenever the import accepts an export, the imported program computes what the original computes on every input: the same outputs, or an error in both |
| `OnnxWitness.ScalarFirstOperandIsRejected` | src/deployment/onnx.rs:663-681 | A concrete model, a scalar plus a matrix then a product, that validates, runs and exports, and whose export is rejected because the sum is recorded with the rank of the scalar |
| `Graphs.OrderIsTopological` | src/graph/mod.rs:477-523 | The scheduler succeeds exactly on acyclic graphs, and then lists every active node once, after all its producers |
| `Graphs.CountEdges` | src/graph/mod.rs:484-496 | The counting loop computes every open degree and records every edge between active nodes as often as it occurs |
| `Graphs.Release` | src/graph/mod.rs:502-515 | Scheduling a node lowers exactly the degrees of its consumers and readies exactly those that have become ready |
| `Graphs.Order` | src/graph/mod.rs:477-523 | The in-degree loop computes the schedule of the specification |
| `Graphs.BackwardSchedule` | src/graph/mod.rs:477-523 | When operands refer backwards the schedule is the construction order |
| `DeadNodes.FindLive` | src/graph/mod.rs:1267-1292 | The backward search finds exactly the nodes that outputs depend on |
| `DeadNodes.LiveUnique` | src/graph/mod.rs:1267-1292 | The set of live nodes is determined by the graph and its outputs |
| `DeadNodes.Eliminate` | src/graph/mod.rs:1267-1292 | The pass rewrites the activity flags in place to liveness and reports exactly the changed nodes, in order |
| `DeadNodes.EliminateIdempotent` | src/graph/mod.rs:1267-1292 | A second run of the pass changes nothing |
| `DeadNodes.PrunedSchedule` | src/graph/mod.rs:477-523 | The schedule after pruning is the old schedule with the dead nodes left out: survivors keep their relative order |
| `GraphExecution.ExecuteLoop` | src/graph/mod.rs:997-1101 | The executor loop computes the evaluation-mode outputs of the specification, or an error |
| `GraphExecution.EliminateKeepsValid` | src/graph/mod.rs:398-475 | A valid graph stays valid under dead-node elimination |
| `GraphExecution.EliminatePreservesExecution` | src/graph/mod.rs:1267-1292 | Whenever execution succeeds before the pass it succeeds after it with identical outputs |
| `Lowering.DottedInjective` | src/deployment/mod.rs:603-608 | A dotted name determines its parts when the first part has no dot |
| `Lowering.ParameterNamesDistinct` | src/graph/mod.rs:1640-1652 | Weight and bias names collide neither with each other nor with any node name, since node names exclude the dot |
| `Lowering.LowerModule` | src/deployment/mod.rs:547-634 | Scheduling, the loop over the order, and validation give the program and state of the specification for every builder-made graph, or an error |
| `Lowering.NodeAgrees` | src/deployment/mod.rs:592-611 | Each translated operation runs the kernel of its node, with the same result or an error in both |
| `Lowering.RunMirrored` | src/deployment/mod.rs:547-634 | Along the whole schedule the program environment shows the graph value of every node under its name |
| `Lowering.LoweringCorrect` | src/deployment/mod.rs:547-634 | On every input that passes the guards, the lowered program returns exactly the evaluation-mode outputs of the graph in name order, or both report an error |
| `Pipeline.FinishedLowersCorrectly` | src/deployment/mod.rs:547-634 | Whatever its parameters hold, a graph the builder finished lowers to a program that returns the evaluation-mode outputs of the graph on every input its guards accept, or both report an error |
| `Pipeline.UnprunedLowersCorrectly` | src/deployment/mod.rs:547-634 | Those outputs are the outputs of the graph before dead-node elimination, wherever that graph executes |
| `Pipeline.FinishedModule` | src/graph/mod.rs:1116-1142 | Allocating one layer per active linear node of a finished graph meets what lowering asks, for any parameter values |
| `SpecInference.BroadcastLoop` | src/graph/mod.rs:1469-1502 | The right-aligned broadcasting loop computes the dimensions of the specification |
| `SpecInference.BinaryConforms` | src/graph/mod.rs:1440-1502 | Every result of broadcasting two conforming operands conforms to the inferred binary spec |
| `SpecInference.FlattenConforms` | src/graph/mod.rs:1591-1624 | Every flattening of a conforming operand conforms to the inferred spec, with wrapped axes and checked products |
| `SpecInference.LinearConforms` | src/graph/mod.rs:1420-1428 | The result of a linear layer conforms to its inferred spec |
| `ConcatShapes.ConcatConformsIff` | src/graph/mod.rs:1504-1575 | The inferred concatenation spec describes the result exactly when the first operand is not a skipped empty vector beside operands of another rank |
| `ConcatShapes.SkippedFirstExample` | src/graph/mod.rs:1504-1575 | A concrete concatenation whose result does not conform to the inferred spec |
| `ShapePropagation.Propagate` | src/graph/mod.rs:1299-1320 | The pass rewrites specs in place in dependency order, reports a change exactly where it makes one, and fails exactly when inference fails |
| `ShapePropagation.PropagatedConsistent` | src/graph/mod.rs:1299-1320 | After the pass every node carries the spec inferred from its operands |
| `ShapePropagation.PropagationIdentity` | src/graph/mod.rs:1299-1320 | On a graph whose specs are the inferred ones the pass changes nothing |
| `ShapePropagation.ExecutionSolves` | src/graph/mod.rs:997-1101 | In a successful execution every scheduled value is what its operation gives on the final values of its operands |
| `ShapePropagation.NodeConformsIff` | src/graph/mod.rs:1408-1438 | At each node the runtime shape conforms to the inferred spec exactly when the node is not a misled concatenation |
| `ShapePropagation.PropagationSound` | src/graph/mod.rs:1299-1320 | In every successful execution all runtime shapes conform to the propagated specs, under the symbols bound by the inputs, exactly when no concatenation skipped its first operand beside operands of another rank |
| `Pipeline.KnownNotMisled` | src/graph/mod.rs:1504-1575 | A concatenation whose operands all have a declared rank is never misled |
| `Pipeline.KnownRanksSound` | src/graph/mod.rs:1299-1320 | In a graph whose concatenations have operands of declared rank only, every value of every successful execution conforms to its propagated spec |
| `Pipeline.FinishedShapesSound` | src/graph/mod.rs:1299-1320 | The exact condition holds for every graph the builder finished, whatever its parameters hold |
| `GraphBuilding.InferValid` | src/graph/mod.rs:1408-1438 | Inference keeps specs well formed, which is why a later builder call never trips over an earlier one |
| `GraphBuilding.GraphBuilder.PushNode` | src/graph/mod.rs:892-918 | A node is appended exactly under a valid unused name; everything made before stays as it was |
| `GraphBuilding.GraphBuilder.Input` | src/graph/mod.rs:620-627 | An input is declared exactly under a valid unused name with a valid spec |
| `GraphBuilding.GraphBuilder.Unary` | src/graph/mod.rs:853-857 | A shape-keeping node is added exactly for an existing operand and a valid unused name, with the spec of its operand |
| `GraphBuilding.GraphBuilder.Linear` | src/graph/mod.rs:645-690 | A linear node is added with the inferred spec, or the builder is left unchanged |
| `GraphBuilding.GraphBuilder.Derived` | src/graph/mod.rs:718-791 | A node with an inferred spec is added over existing operands, or the builder is left unchanged |
| `GraphBuilding.GraphBuilder.Loss` | src/graph/mod.rs:869-891 | A scalar loss node is added, or the builder is left unchanged |
| `GraphBuilding.GraphBuilder.AddOutput` | src/graph/mod.rs:819-826 | An output is registered under its own node exactly for an existing value and a valid unused name |
| `GraphBuilding.MadeValidates` | src/graph/mod.rs:398-475 | A builder-made graph validates exactly when it has an output |
| `GraphBuilding.FinishKeepsSpecs` | src/graph/mod.rs:1299-1320 | On a builder-made graph, after dead-node elimination, shape propagation changes nothing |
| `GraphBuilding.FinishedGraph` | src/graph/mod.rs:835-846 | A finished graph meets everything that lowering and shape soundness ask of a graph |
| `GraphBuilding.RunPasses` | src/graph/mod.rs:835-846 | The three passes together succeed on every builder-made graph with an output and change activity flags only |
| `GraphBuilding.GraphBuilder.Finish` | src/graph/mod.rs:835-846 | `finish` succeeds exactly when at least one output was added, for every history of builder calls |
| `Collectives.Evaluate` | src/distributed/process.rs:753-884 | The coordinator evaluation, with its checks and loops, gives every rank the response of the specification, or fails |
| `Collectives.ReduceLoop` | src/distributed/process.rs:892-912 | The reduction folds the payloads left to right in rank order, and divides for a mean |
| `Collectives.AgreedLoop` | src/distributed/process.rs:755-791 | The request checks accept exactly the agreeing request vectors |
| `Collectives.AllToAllTwice` | src/distributed/process.rs:839-852 | Exchanging twice brings every tensor home |
| `Collectives.ScatterUndoesGather` | src/distributed/process.rs:825-838 | Scattering what one root gathered gives every rank its own tensor back |
| `Collectives.ReduceScatterIsAllReduce` | src/distributed/process.rs:839-852 | Reduce-scatter gives each rank the all-reduce of the tensors addressed to it |
| `CollectiveSafety.RunConsistent` | src/distributed/process.rs:585-745 | Every step of every interleaving, with crashes and timeouts anywhere, keeps the protocol invariant |
| `CollectiveSafety.CollectiveResult` | src/distributed/process.rs:585-664 | If collective k returned Ok at any rank, every rank had entered it with an error-free request of the same sequence and operation, and that rank holds its entry of the evaluation of all requests in rank order |
| `CollectiveSafety.FailedForever` | src/distributed/process.rs:470-482 | A failed group never changes again, so no later operation returns Ok |
| `CollectiveSafety.ExactlyOnceInOrder` | src/distributed/process.rs:683-745 | The k-th completed receive is the k-th send with its tensor and tag, a send that returned was received, and the two counters differ by at most one, also when collective and point-to-point frames cross |
| `Lockstep.DriveIsRun` | src/distributed/process.rs:585-664 | Every fault-free schedule of rank programs is a run of the protocol |
| `Lockstep.EndTogether` | src/distributed/training.rs:828-836 | Programs that ask for the same collectives end together: equal numbers of results, and success everywhere or failed groups everywhere |
| `Lockstep.NoDeadlock` | src/distributed/process.rs:585-664 | Fault-free ranks never all wait for each other |
| `Lockstep.EveryRunEnds` | src/distributed/process.rs:585-664 | No schedule keeps the ranks busy beyond a bound in the world size and the number of collectives |
| `CollectivePrograms.EarlierRoundsOf` | src/distributed/process.rs:585-664 | Later rounds only add results, and every rank took part in each earlier one |
| `Chaining.ThenTogether` | src/distributed/training.rs:141-181 | When one aligned program follows another the ranks stay together, although each rank goes on without waiting for the others |
| `Chaining.ThenStops` | src/distributed/training.rs:141-181 | A chain of calls takes at most as many collectives as the calls together |
| `Chaining.ChainParted` | src/distributed/training.rs:141-181 | Where a chain of calls completed, every call in it completed, and the results are those of the calls one after the other |
| `Resuming.DriveAtop` | src/distributed/process.rs:585-664 | A run from any settled state, at any sequence number and with any history, is the run of an unused group on top of that history |
| `Resuming.SettledAgain` | src/distributed/process.rs:585-664 | When all ranks returned Ok every frame sent was read and the sequence numbers agree again |
| `Resuming.RunEndsFrom` | src/distributed/process.rs:585-664 | From a settled state no schedule keeps the ranks busy forever |
| `Resuming.SomeRankMoves` | src/distributed/process.rs:585-664 | From a settled state ranks that run aligned programs never all wait for each other |
| `ReplicatedTraining.SameCopiedBack` | src/distributed/training.rs:165-181 | Replicas whose metadata agree end with the same gradients, undefined ones included, once the averages are copied back |
| `ReplicatedTraining.FinishedSynchronised` | src/distributed/training.rs:141-181 | A call that completed gave the rank the rank-ordered mean of every defined gradient |
| `ReplicaSetup.SetUpAligned` | src/distributed/training.rs:47-87 | Constructing the replicas keeps the ranks together: one rejects the layouts exactly when they differ somewhere |
| `ReplicaSetup.StartsFromRankZero` | src/distributed/training.rs:47-87 | Where construction returned Ok every rank was given every variable of rank zero |
| `ReplicaSetup.TrainingFromTheStart` | src/distributed/training.rs:47-181 | A group just formed that constructs its replicas and then synchronises gradients call after call ends coherently |
| `ReplicatedTraining.CoherentOutcome` | src/distributed/training.rs:88-181 | From any settled state of a group, after any aligned program, for any number of `sync_gradients` calls with any local errors or differing gradients: all ranks issue the same operations, and once all returned either every group has failed, or every rank holds in every call the same rank-ordered mean gradients and the group is settled again |
| `ReplicatedTraining.SyncTerminates` | src/distributed/training.rs:141-181 | From any settled state no fault-free schedule keeps the group busy beyond a bound in its size and the number of collectives |
| `ReplicatedTraining.SyncProgresses` | src/distributed/training.rs:141-181 | Until all ranks have returned from their last call some rank can move |
| `Sharding.ChunksCover` | src/distributed/training.rs:878-893 | The padded chunks cover every element and pad less than one element per rank |
| `Sharding.JoinLoop` | src/distributed/training.rs:325-333 | The consolidating loop extends the buffer to the joined prefix of the specification |
| `Sharding.JoinUndoesShard` | src/distributed/training.rs:881-893 | Joining the shards gives the tensor back, for every length, element width and world size |
| `Sharding.JoinedIsNarrowed` | src/distributed/training.rs:325-333 | Cutting each shard while joining equals concatenating and narrowing at the end |
| `Sharding.GatherRepresented` | src/distributed/training.rs:627-666 | All-gathering, concatenating and narrowing the chunks gives the full parameter |
| `ShardedTraining.MeanRepresented` | src/distributed/training.rs:690-697 | Each rank of the reduce-scatter receives its chunk of the all-reduced mean gradient |
| `ShardedTraining.UpdateRepresented` | src/distributed/training.rs:698-712 | Updating a chunk element by element yields the chunk of the updated parameter |
| `ShardedTraining.StepRefines` | src/distributed/training.rs:667-718 | One sharded step, gathered, is one full step with the mean gradient, for every element-wise optimizer |
| `ShardedTraining.TrainingRefines` | src/distributed/training.rs:627-718 | After any number of sharded steps the gathered shards are the fully trained parameters |
| `ShardedCollectives.ReducedIsMean` | src/distributed/process.rs:892-912 | With elementwise payload arithmetic the coordinator's mean reduction is the elementwise mean in rank order |
| `ShardedCollectives.ReduceScatterIsScatteredMean` | src/distributed/process.rs:839-853 | The coordinator's reduce-scatter gives each rank its chunk of the mean gradient, which is what a sharded step updates with |
| `ShardedCollectives.AllGatherMakesWhole` | src/distributed/process.rs:873-877 | The coordinator's all-gather gives each rank the parts that make up the full parameter |
| `RoundResults.ResultAt` | src/distributed/process.rs:585-664 | Once a later collective is reached every rank holds, for each earlier one, its entry of the evaluation of what all ranks asked for |
| `Stranding.LeftBehind` | src/distributed/process.rs:585-664 | Where one rank stops and another goes on, no run from a consistent settled state, with crashes and timeouts at any moment, gives any rank the collective the one does not enter, and those that go on return no Ok |
| `ShardedSteps.GatheredIs` | src/distributed/training.rs:627-661 | Whatever has been gathered of the parameters is the same at every rank, and in every run: the shards of all ranks in rank order |
| `ShardedSteps.AlignedIffNeverAlone` | src/distributed/training.rs:667-718 | The ranks of a training step stay together exactly if, wherever the step gets to, none of the calls outside the agreed phases (making a parameter whole, tracking, reading the loss, cutting a gradient) fails at some ranks only |
| `ShardedRuns.SharedCallsNeverPart` | src/distributed/training.rs:653-700 | Those calls see the same gathered tensors everywhere: where they are the same functions of them, losses can be read and gradients cut, no rank ever leaves alone |
| `ShardedRuns.FinishedHeld` | src/distributed/training.rs:667-718 | Where every rank finished a step, each was given every shard of every parameter, its piece of every mean gradient and the same mean loss, or one of those calls failed at all ranks at the same place |
| `ShardedRuns.CoherentSteps` | src/distributed/training.rs:667-718 | From any settled state of a group, after any aligned program, for any number of training steps that no rank leaves alone and any agreed local errors: all ranks issue the same operations, and once all returned either every group has failed, or every step gave every rank what it should and the group is settled again |
| `ShardedRuns.StepsTerminate` | src/distributed/training.rs:667-718 | No fault-free schedule of training steps keeps the group busy beyond a bound, and until all ranks have returned some rank can move |
| `ShardedRuns.LeftAlone` | src/distributed/training.rs:653-700 | If one of those calls fails at one rank and not at another, then in no run from a consistent settled state, with whatever crashes and timeouts, does the step return Ok at the rank that goes on |
| `ShardedWitness.OneRankLeavesAlone` | src/distributed/training.rs:653-657 | A concrete step of two ranks and one parameter that one rank leaves after five collectives while the other goes on |
| `ShardedRefinement.PieceIsScatteredMean` | src/distributed/training.rs:694-701 | A finished step on the process group gave each rank its chunk of the mean of all ranks' gradients of every parameter |
| `ShardedRefinement.RankStep` | src/distributed/training.rs:694-713 | The local update with the gradients the rank was given is the sharded step of the specification at that rank |
| `ShardedRefinement.FinishedStepRefines` | src/distributed/training.rs:667-718 | A step that every rank finished on the process group leaves the ranks with the shards of what one step on the full parameters with the mean gradient gives |
| `Checkpoints.RanksCovered` | src/distributed/training.rs:292-312 | As many distinct in-range ranks as the world size cover every rank |
| `Checkpoints.PlaceRecords` | src/distributed/training.rs:293-312 | Placing records by rank succeeds exactly when every record belongs to the set and no rank repeats |
| `Checkpoints.OrderRecords` | src/distributed/training.rs:293-317 | The records are ordered by rank exactly when the set is complete; a missing rank never surfaces later |
| `Checkpoints.MergeWeights` | src/distributed/training.rs:318-342 | The merging loop builds the weights of the specification |
| `Checkpoints.Consolidate` | src/distributed/training.rs:292-358 | Consolidation computes the merge of the records by rank, or fails |
| `Checkpoints.OrderIrrelevant` | src/distributed/training.rs:292-358 | Records may come in any order: the outcome is the same, error or record |
| `Checkpoints.MergedOptimizerIs` | src/distributed/training.rs:343-352 | Merging every rank's share of an optimizer state gives the state back |
| `Checkpoints.CapturedValid` | src/distributed/training.rs:360-405 | Every record captured from a valid state passes the validation of a sharded checkpoint |
| `Checkpoints.ConsolidateUndoesShard` | src/distributed/training.rs:292-396 | Consolidating the shards of a state gives the state back, for every world size and any order of the records |
| `Checkpoints.ReshardIsShard` | src/distributed/training.rs:442-469 | Re-sharding through a consolidated checkpoint to any world size equals sharding the original directly |
| `Views.ValidateView` | src/deployment/mod.rs:894-946 | The validation loops accept exactly the views of the specification, with the overflow and bounds errors of the source |
| `Views.ContiguousStrides` | src/deployment/mod.rs:883-893 | The loop computes row-major strides, or reports overflow |
| `Views.ViewInjective` | src/deployment/mod.rs:894-946 | Distinct index tuples of an accepted view are distinct storage elements, at any rank |
| `Views.ViewInBounds` | src/deployment/mod.rs:894-946 | Every address of an accepted view is inside the storage |
| `Views.ContiguousAccepted` | src/deployment/mod.rs:883-946 | Contiguous strides are always accepted on storage of exactly the needed size |
| `Views.ContiguousIsRowMajor` | src/deployment/mod.rs:883-893 | A contiguous view addresses its storage in row-major order |
| `Views.ContiguousOnto` | src/deployment/mod.rs:883-893 | Every storage element is addressed by the contiguous view: with injectivity, a bijection |
| `Snapshots.CopyInto` | src/deployment/mod.rs:757-764 | The element loop writes a tensor through a view and touches no other cell |
| `Snapshots.UncoveredKept` | src/deployment/mod.rs:740-770 | No sequence of in-place writes through views changes a cell that no view covers |
| `Snapshots.RebuildStorage` | src/deployment/mod.rs:740-770 | Copying the live views over the original contents rebuilds the live storage, however the views overlap |
| `Snapshots.Snapshot` | src/deployment/mod.rs:740-770 | After any in-place writes through sharing views, the snapshot is exactly the live storages, and loads back under the same layout |
| `LiveModels.WriteShows` | src/deployment/mod.rs:503-532 | A write through one state tensor shows in another exactly where the two views meet, which depends on the layout alone |
| `LiveModels.LiveModel.constructor` | src/deployment/mod.rs:464-538 | Loading allocates one array per storage, all separate, holding the stored elements |
| `LiveModels.LiveModel.Put` | src/deployment/mod.rs:503-532 | An in-place write through a state tensor changes its one cell and keeps the model consistent with its artifact |
| `LiveModels.LiveModel.Snapshot` | src/deployment/mod.rs:740-770 | After any in-place writes the snapshot is exactly what memory holds |
| `LiveModels.Reload` | src/deployment/mod.rs:464-538 | Loading a snapshot gives a separate model whose state tensors show the same elements under the same layout |
| `Restoring.CheckNeighbours` | src/checkpoint.rs:279-298 | The loop over adjacent ranges decides the neighbour condition |
| `Restoring.NeighboursDecideAll` | src/checkpoint.rs:279-298 | Checking neighbours of the sorted ranges decides the compatibility of every pair, although value equality need not be reflexive |
| `Restoring.DevicesDecide` | src/checkpoint.rs:251-298 | The per-device checks hold exactly when any two overlapping targets occupy identical ranges with equal saved values |
| `Restoring.CheckOverlaps` | src/checkpoint.rs:251-298 | The overlap check accepts exactly the consistent destinations |
| `Restoring.CopiesHold` | src/checkpoint.rs:299-305 | After the copies, in any order, every tensor holds its saved bytes or those of a value-equal tensor in the same place |
| `Restoring.Restore` | src/checkpoint.rs:245-307 | Restore succeeds exactly when the metadata match and the destinations are consistent, and then every tensor value-equals its saved one |
| `Plateau.ReduceLrOnPlateau.Step` | src/optim/schedulers.rs:407-458 | A step computes the next scheduler state or changes nothing; it refuses exactly non-finite metrics, a full epoch counter, foreign states and negative rates, and leaves a state it accepts again |
| `Plateau.RefusedRateWasNegative` | src/optim/stateful.rs:496-515 | A reduction makes no rate negative that was not, so the optimizer refuses new rates exactly when a current one is negative |
| `Plateau.FirstReduction` | src/optim/schedulers.rs:407-458 | The first reduction comes no earlier than step patience + 2 |
| `Plateau.ReductionSpacing` | src/optim/schedulers.rs:407-458 | Two reductions are at least cooldown + patience + 1 steps apart |
| `Plateau.RatesNeverRise` | src/optim/schedulers.rs:443-453 | Rates never rise |
| `Plateau.RatesBounded` | src/optim/schedulers.rs:443-453 | No rate ever falls below the smaller of its base rate and its minimum |
| `Plateau.ImprovementIsBetterIff` | src/optim/schedulers.rs:424-436 | What counts as an improvement is a strictly better metric, except exactly for a relative threshold on a negative best value |
| `Plateau.WorseMetricCounts` | src/optim/schedulers.rs:424-436 | A concrete loss that is worse and counts as an improvement |
| `Pt2Trees.ParseWritten` | src/deployment/pt2.rs:272-332 | A written tree is read back to itself, leaving the names after it, exactly when it is within the depth limit |
| `Pt2Trees.TreeRoundTrip` | src/deployment/pt2.rs:272-332 | A written tree is read back to itself exactly when it is within the limits with unique keys |
| `Pt2Operators.OperatorRoundTrip` | src/deployment/pt2.rs:572-714 | Every exported operator parses back to itself on the same names with no argument left over |
| `Pt2RoundTrip.NameRoundTrip` | src/deployment/pt2.rs:797-836 | Placeholder renaming out and back is the identity on state names and on every name that is not a placeholder |
| `Pt2RoundTrip.PlaceholdersDistinct` | src/deployment/pt2.rs:797-801 | State placeholders are distinct |
| `Pt2RoundTrip.NewSymbolInjective` | src/deployment/pt2.rs:760-774 | Distinct symbols get distinct exported names |
| `Pt2RoundTrip.InputsRead` | src/deployment/pt2.rs:217-263 | Exported input specs are read back as the originals with their symbols renamed |
| `Pt2RoundTrip.SameAcceptance` | src/deployment/pt2.rs:760-774 | The renamed guards accept exactly the same inputs |
| `Pt2RoundTrip.ReimportIff` | src/deployment/pt2.rs:334-571 | An exported program can be imported again exactly when no operation is named like a state placeholder and the wrapped input tree is within the limits; it then comes back renamed and wrapped, otherwise unchanged |
| `Pt2RoundTrip.ReimportedMeansTheSame` | src/deployment/pt2.rs:734-905 | Whenever an exported program imports again it computes what the original computes on every input |
| `Pt2Witness.PlaceholderNameIsRejected` | src/deployment/pt2.rs:797-905 | A concrete model that validates and exports and whose archive is rejected |
| `Pt2Witness.DeepTreeIsRejected` | src/deployment/pt2.rs:319-332 | A concrete model with an input tree of the greatest depth that validates and exports and whose archive is rejected |

## Left out

- Devices: tensors are all in one place, and the device checks of guards and kernels are not modelled.
- KernelLaws.LinearIsMatmulAdd: a linear layer is taken as the product followed by the addition of the bias; a fused kernel that rounds once would differ by that rounding.
- Autograd and training mode: dropout is modelled in evaluation mode only, and gradients enter as given tensors.
- Text and container encodings (protobuf, ZIP, JSON text, the little-endian bytes of constants), file publication and error message text: models start from decoded structures.
- Sockets, deadlines and the size of an encoded message: each becomes a failure step that may happen at any moment.
- `DistributedDataParallel::backward_step` and `sync_buffers`, and the construction, `checkpoint` and `restore` of the sharded trainer on the protocol: they follow the pattern of `sync_gradients` and `train_step`.
- ProcessGroup.Step: the five fields of a group are a record updated by a function, not a class, because one property speaks about all ranks at once.
- ReplicatedTraining.CoherentOutcome: the metadata encoding is assumed injective, a local copy either succeeds or fails as given, and each rank's program is a function of its results in the call rather than a method.
- ReplicaSetup.SetUpAligned: the copies that follow the last broadcast of construction are assumed to succeed; a rank on which they fail returns an error without telling the others.
- Checkpoints.Consolidate: the optimizer part is merged by a function instead of a loop, its settings are opaque bytes, and group bookkeeping is not modelled.
- Checkpoints.MergedOptimizerIs: optimizer slots are a map from names to payloads; settings and versions are opaque.
- ShardedTraining.StepRefines: the loss is a function of the full parameters and the rank; the agreement calls around each phase are in `ShardedSteps`, and `ShardedRefinement` joins the two for steps that every rank finished.
- ShardedTraining.TrainingRefines: iterates steps on values; `ShardedRefinement.FinishedStepRefines` is its step on the process group.
- ShardedSteps.AlignedIffNeverAlone: all ranks have the same number of parameters, as the comparison at construction makes sure; local calls are functions of the gathered tensors, or of the scattered gradients; the loss returned is read once more after the last collective, where a failure no longer concerns the other ranks.
- Lockstep.EndTogether: turning a valid payload of a response into a tensor is taken to succeed; where it fails the group fails as with a timeout.
- OnnxTheorems.ReimportExactly: the byte-size limits of the two files and the field-count budget of the importer (src/deployment/onnx.rs:374) are not modelled; ranks declared by value_info entries are not either, since exports carry none. A linear weight of rank other than two makes the modelled export fail, and models with shared state storage, which the source refuses to export, are covered as if they were exported.
- Pt2RoundTrip.ReimportIff: the example run, tensor metadata, storage roles and state payloads are not part of the archive modelled, nor are the limits on the sizes of JSON arrays and objects (src/deployment/pt2.rs:188, :201).
- Lowering.LoweringCorrect: the size limits on state tensors when a model is built are not modelled.
- GraphExecution.EliminatePreservesExecution: the GELU and loss kernels are arbitrary functions.
- ShapePropagation.PropagationSound: the sizes of runtime tensors are assumed to fit a signed 64-bit integer; element types and devices in specs are not compared.
- Snapshots.Snapshot: a cell is the bytes of one element; gradient flags, the size limits of artifacts and the shape check of live state are not modelled.
- Restoring.Restore: device memory is a value, not an array, and the optimizer and random-number parts are omitted.
- Validation.ScopeOf: name lengths are counted in characters, where the source counts the bytes of their UTF-8 encoding.
- Node identifiers and output values of a graph are one index, as the builder makes them.
- TorchScript tracing, the AMP and interop modules, and the other schedulers: they would add easy members.
