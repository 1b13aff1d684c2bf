# Verified models of checkpoint conversion and training drivers

The repository trains language models with reinforcement learning and converts checkpoints between formats. This
project models its checkpoint converters and its three training drivers in Dafny and proves what they keep, lose and
promise.

* **Parallel conversion.** `Params`, `MoeChunks`, `Accumulation`, `Rearrangement`, `Spread`, `GreedyPacking`,
  `Grouping`, `Planner`, `PlanOrder`, `Dispatcher`, `Sharding`, `TensorNames`, `Cores`, `SerialConversion`, `RayRefinement`,
  `FamilyRefinement`, `OrderSafety`, `SplitOutputs`, `RayIndex`, `Conversion` and `Converters` model the converter that
  plans tasks, hands them to workers and merges their shards, and compare it with the serial converter. A core is a
  function that may raise an error. Ray is a list that says which worker is ready at each wait; the results hold for
  every such list. A worker keeps what a core has stashed from one task to the next. `Converters.ConvertRay` and
  `Converters.ConvertSerial` put the pieces together, `Converters.ProgramsAgree` compares what they leave on disk.
* **Training drivers.** `AsyncDriver` (pipelined generation, with `StandingProducer` for the fully asynchronous mode), `SyncDriver` (engines and trainers taking turns on the
  same memory) and `MultiPolicy` (one leader, any number of followers, as a state machine whose steps are the code
  between two suspension points). `Schedule` holds what they share.
* **Streaming conversion.** `Nvfp4` models the conversion of files in any order with gate/up pairs that may lie in
  different files. The quantiser is symbolic, so the results hold for every quantiser.
* **Number formats and layouts.** `E4M3`, `Mxfp4Cast`, `Mxfp8Scale`, `BlockFp8`, `DequantKernel`, `Int4Pack` and
  `AutoPipeline`. E2M1 and E8M0 follow sections 5.3.3 and 5.4.1 of the OCP Microscaling Formats (MX) Specification
  v1.0, binary32 follows section 3.4 of IEEE 754-2019. Values are exact: integers, or reals where a quotient needs them.

`Arithmetic`, `Matrices`, `Sequences`, `Sorting`, `Strings`, `Tensors` and `Wrappers` are shared helpers.

## Where the code promises more than it keeps

Each of these is proved with the exact condition.

* When the serial converter succeeds and its outputs have distinct names, the parallel one leaves the same, whatever the
  order in which tasks finish, if and only if there is one worker or every output that a core collects from several calls
  has all its pieces in one task; every expert key of the direct route goes by the core's names; and there is anything to
  write (`Conversion.EveryRunAgrees`, `Converters.ProgramsAgree`).
* Collected outputs: MLA pairs are safe, and so are cores that hand on every tensor directly. Three cores collect
  parameters of several keys in a process-wide accumulator: Inkling (router and shared gate; the shared experts
  likewise), DeepSeek V4 and GLM-5 next (the three scales of a hyper-connection). The default plan puts their keys into
  separate tasks, so that with two workers or more some order of completion loses the output, whatever else is in the
  checkpoint (`SplitOutputs.InklingCheckpointLosesGate`, `SplitOutputs.HyperConnectionScaleIsLost`).
* Names: the direct route names expert weights by the prefix of the source key. That is the core's name exactly for an
  unprefixed key with a plain core or a prefixed key with the Kimi VL core (`Cores.DirectNameAgrees`). The Inkling,
  Qwen 3.5 and Kimi K3 cores name experts differently; with them any expert key on the direct route makes the outputs
  differ (`FamilyRefinement.FamilyRefinesSerial`).
* Errors: the direct route neither compares the number of experts with the arguments nor calls the core. So it converts
  expert keys that the serial loop refuses, exactly those with another number of experts or with experts under a prefix
  the core does not know (`Converters.ErrorsCompared`).
* The serial writer leaves an empty first shard when the first tensor alone exceeds the chunk size
  (`Sharding.SaveTensors`).
* The FP4 to FP8 cast, described as lossless, is so for a value h/2 exactly when its distance d from the tile's largest
  exponent is at most 14 or h is divisible by 2^(d - 14) (`Mxfp4Cast.CastIsLosslessIff`).
* Exponent bytes 0 and 255 do not mean the same as E8M0 code and as binary32 field (`Mxfp8Scale.ByteKeepsValue`,
  `Mxfp8Scale.ExpansionKeepsElements`).
* Colocated with the "gpu" peak device, a run that trains keeps KV cache and trainer state apart exactly if the offload
  level names the KV cache; engine weights and trainer state always meet (`SyncDriver.Cluster.Run`).
* In the fully asynchronous mode the lag of the version at the request is below the update interval k, but not that of
  the data: the producer goes on across updates. With a staleness limit of m versions the oldest tokens are at most
  (m + 1) k - 1 steps behind, and some run reaches that; without a limit, which is the default, every step of some run
  trains on tokens as old as the run (`StandingProducer.GroupLag`, `StandingProducer.GroupLagIsTight`,
  `StandingProducer.NoLimitNoBound`).
* A debug exit of the pipelined driver leaves one requested rollout that no step uses, unless it falls on the last step
  (`AsyncDriver.LeftOverRollouts`).
* The pipeline search fails exactly if the odd part of the ranks left to the pipeline leaves its last stage without
  layers; never for powers of two, always if it exceeds the layers (`AutoPipeline.SearchSucceedsIff`,
  `AutoPipeline.ConversionArgs.ChoosePipelineSize`).

## Model

| member | source | states |
|---|---|---|
| `MoeChunks.ConvertedMoeTensorsFromChunk` | miles/tools/convert_torch_dist_to_hf_ray.py:573-643 | the expert loop over a chunk computes the specified slices from the data read, for whole and half chunks of fc1 and for fc2 |
| `MoeChunks.ExpertSlices` | miles/tools/convert_torch_dist_to_hf_ray.py:606-642 | one expert of a supported chunk hands on exactly the projections its rows cover, each equal to what the core cuts from the whole expert (gate the first half of the ffn rows, up the second, down all; `chunk` gives the larger half first) |
| `MoeChunks.DirectEqualsWhole` | miles/tools/convert_torch_dist_to_hf_ray.py:475-498 | if the chunks tile the tensor and each passes the support check, all chunks together hand on every (expert, projection) slice of the whole tensor exactly once and nothing else, also when some experts are stored whole and others in halves |
| `MoeChunks.SupportedIff` | miles/tools/convert_torch_dist_to_hf_ray.py:475-498 | what the support check is: a chunk with cells passes if and only if it lies in the tensor, the row count of a gated tensor is even, and of every projection of every expert (the lower and the upper half of fc1, all of fc2, over the full hidden size) it holds all cells or none |
| `MoeChunks.ChunkInOrder` | miles/tools/convert_torch_dist_to_hf_ray.py:600-643 | item by item, what a chunk hands on: its k-th expert is expert offset + k of the tensor; fc2 gives all its rows, a whole fc1 its lower half as gate and then its upper half as up, a half fc1 the one it holds |
| `MoeChunks.WholeInOrder` | miles/miles/backends/megatron_utils/megatron_to_hf/kimi_vl.py:44-69 | item by item, what a core makes of a whole expert tensor: gate then up of each expert, the middle row of an odd number with the gate, or the down projection |
| `MoeChunks.OddRowsUnsupported` | miles/tools/convert_torch_dist_to_hf_ray.py:495-498 | a gated tensor with an odd number of ffn rows never takes the direct route |
| `Params.ParamsAreSlices` | miles/tools/convert_torch_dist_to_hf.py:65-96 | taking a parameter apart yields exactly its layer and expert slices under their names; a name without layers is handed on untouched even when its experts are stacked |
| `Params.TakenApartInOrder` | miles/tools/convert_torch_dist_to_hf.py:65-96 | item by item: part l of a stack of layers has layer l and row l of the value, with stem and expert kept; part e of a stack of experts has expert e and row e; part l * E + e of a stack of both has layer l, expert e and row e of row l |
| `Params.TakenApartIff` | miles/tools/convert_torch_dist_to_hf.py:65-96 | a key can be taken apart if and only if the stacks its name announces have as many rows as there are layers and experts; a name without layers always can |
| `Params.ParamsDistinct` | miles/tools/convert_torch_dist_to_hf.py:65-96 | no two slices of a parameter get the same name |
| `Accumulation.PieceAccumulator.Put` | miles/miles/backends/megatron_utils/megatron_to_hf/inkling.py:37-45 | a stashed piece joins its bucket; the last missing one returns and empties it; a bucket with more pieces than expected is refused |
| `Accumulation.PieceAccumulator.Convert` | miles/miles/backends/megatron_utils/megatron_to_hf/inkling.py:161-168 | converting calls in order hands on what the specification says, and with distinct pieces the refusal never happens |
| `Accumulation.ReadyStep` | miles/miles/backends/megatron_utils/megatron_to_hf/inkling.py:37-45 | distinct pieces stay distinct, a bucket never overfills, and when it completes no piece of it is left to come |
| `Accumulation.RunAppend` | miles/miles/backends/megatron_utils/megatron_to_hf/inkling.py:48 | converting two call lists one after the other carries the stash across: what one task leaves behind the next one finds |
| `Accumulation.ReadyRest` | miles/miles/backends/megatron_utils/megatron_to_hf/inkling.py:37-45 | what is well-formed as one list of calls stays so when it is cut into tasks: the rest is well-formed for what has been stashed until then |
| `Rearrangement.OutputIsOrderFree` | miles/miles/backends/megatron_utils/megatron_to_hf/inkling.py:37-45 | what a process hands on is its direct outputs plus one joined output for every bucket that all its calls complete, so the order of the calls does not show |
| `Spread.JoinedInPart` | miles/miles/backends/megatron_utils/megatron_to_hf/inkling.py:48 | one of several processes joins an output exactly if the single process does and it holds all of its pieces, and then from the same bucket |
| `Spread.JoinedOnce` | miles/miles/backends/megatron_utils/megatron_to_hf/inkling.py:48 | no output is joined by two processes |
| `Spread.SpreadOutputs` | miles/miles/backends/megatron_utils/megatron_to_hf/inkling.py:48 | spreading the calls over processes never adds an output; what is lost are exactly the joined outputs of which no process holds all pieces; nothing is lost if and only if every joined output has all pieces in one process |
| `Spread.SpreadJoins` | miles/miles/backends/megatron_utils/megatron_to_hf/inkling.py:48 | whatever processes hand on directly, of the single process's joined outputs they hand on only those of which one of them holds all pieces, and all exactly if each has all its pieces in one process |
| `GreedyPacking.BinsStep` | miles/tools/convert_torch_dist_to_hf_ray.py:740-746 | the closing rule keeps items in order, bins non-empty, and lets only a lone item exceed the cap |
| `GreedyPacking.TwiceTheTotal` | miles/tools/convert_torch_dist_to_hf_ray.py:740-748 | for two bins or more, (n - 1) times the cap is less than twice the total size |
| `GreedyPacking.GreedyIsUnique` | miles/tools/convert_torch_dist_to_hf_ray.py:740-748 | the rule determines the packing: no other split of the same items satisfies it |
| `GreedyPacking.PackInOrder` | miles/tools/convert_torch_dist_to_hf_ray.py:823-828 | the grouping loop produces that packing |
| `Grouping.GroupByKey` | miles/tools/convert_torch_dist_to_hf_ray.py:757-760 | grouping in a dictionary of lists computes the specified groups |
| `Grouping.GroupByIsGrouped` | miles/tools/convert_torch_dist_to_hf_ray.py:757-760 | groups are non-empty, have distinct keys, hold only members of their key, and together hold every item once |
| `Grouping.SameKeySameGroup` | miles/tools/convert_torch_dist_to_hf_ray.py:757-760 | two items with the same key share a group |
| `Planner.CreateMoeBlockSpecs` | miles/tools/convert_torch_dist_to_hf_ray.py:529-558 | block specs are returned, rather than none, if and only if the source is an expert key of three dimensions with chunks, all of which consist of whole projections of experts (for chunks with cells, and said without the support check); they are then the blocks by storage file |
| `Planner.DirectIff` | miles/tools/convert_torch_dist_to_hf_ray.py:475-498 | the same for the route itself: exactly those sources take the direct one |
| `PlanOrder.CollectedInOrder` | miles/tools/convert_torch_dist_to_hf_ray.py:772-789 | the collected blocks are those of the direct sources, source by source in the order of their names |
| `PlanOrder.BlocksInOrder` | miles/tools/convert_torch_dist_to_hf_ray.py:543-558 | a direct source has one block for each of its storage files, in the order of their names; a block holds chunks of its file only, in the order of their offsets, with the bytes these take, and every chunk is in one |
| `Planner.BlocksPartition` | miles/tools/convert_torch_dist_to_hf_ray.py:543-558 | every chunk of a direct source lies in exactly one of its blocks, and the blocks account for all of its stored bytes |
| `Planner.CollectMoeBlocksByFile` | miles/tools/convert_torch_dist_to_hf_ray.py:772-789 | the kept sources split into the blocks of the direct ones, in key order, and the others |
| `Planner.AllBlocksPartition` | miles/tools/convert_torch_dist_to_hf_ray.py:781-788 | the blocks hold each chunk of each direct source once |
| `Planner.GroupMoeBlockTasks` | miles/tools/convert_torch_dist_to_hf_ray.py:792-829 | block tasks are the greedy packing of the blocks in source and file order, with 2 GiB standing in for a target of zero |
| `Planner.BlockTasksPartition` | miles/tools/convert_torch_dist_to_hf_ray.py:792-829 | block tasks lose and repeat no block and no byte, and none is empty |
| `Planner.BlockTasksBound` | miles/tools/convert_torch_dist_to_hf_ray.py:792-829 | for two block tasks or more, (n - 1) times the target is less than twice the bytes |
| `PlanOrder.BlockTasksInOrder` | miles/tools/convert_torch_dist_to_hf_ray.py:792-829 | through all block tasks the blocks come by source, then file; a task names each source of its blocks once, sorted, and has their bytes; it is closed only by a block that would take it above the target (2147483648 when none is given), and only a lone block exceeds that |
| `Planner.PairSharesGroup` | miles/tools/convert_torch_dist_to_hf_ray.py:720-724 | the q and kv down-projections of a layer get the same group name |
| `PlanOrder.OtherKeysAlone` | miles/tools/convert_torch_dist_to_hf_ray.py:720-724 | a key that names neither down-projection keeps a group of its own |
| `Planner.GroupSmallTasks` | miles/tools/convert_torch_dist_to_hf_ray.py:727-749 | without a target nothing is grouped; otherwise tasks at or above it stay alone and the others are packed greedily, larger first |
| `Planner.GroupingConserves` | miles/tools/convert_torch_dist_to_hf_ray.py:727-749 | grouping loses and repeats no key and no byte |
| `Planner.GroupingKeepsTogether` | miles/tools/convert_torch_dist_to_hf_ray.py:727-749 | keys that form one atomic task end up in one grouped task |
| `Planner.GroupingBound` | miles/tools/convert_torch_dist_to_hf_ray.py:727-749 | packed tasks never exceed the target and satisfy the bound of twice the total |
| `PlanOrder.WholeTasksInOrder` | miles/tools/convert_torch_dist_to_hf_ray.py:727-749 | with a target, exactly the atomic tasks of at least its size stay alone; the others are packed by size, larger first, then by keys; a packed task has the bytes and the sorted keys of its bin, stays within the target, and is closed only by one that would exceed it |
| `PlanOrder.AtomicInOrder` | miles/tools/convert_torch_dist_to_hf_ray.py:752-766 | an atomic task holds the keys of one group, sorted, with the bytes of their tensors |
| `Planner.AloneWithoutGrouping` | miles/tools/convert_torch_dist_to_hf_ray.py:731-766 | without MLA pairs and without a target every whole key is a task of its own |
| `Planner.AtomicsConserve` | miles/tools/convert_torch_dist_to_hf_ray.py:757-766 | the atomic tasks hold every whole key once and all of its bytes |
| `Planner.PlanWholeSourceTasks` | miles/tools/convert_torch_dist_to_hf_ray.py:752-769 | whole keys are grouped, packed, sorted larger first and numbered |
| `Planner.PlanConversionTasks` | miles/tools/convert_torch_dist_to_hf_ray.py:832-852 | task ids are 0 to n - 1 in order, larger tasks first; all tasks together do every source's work exactly once; estimated bytes are conserved; with MLA grouping on, the two keys of a pair are in one task; without a target, whole keys of different groups are in different tasks |
| `PlanOrder.PlanInOrder` | miles/tools/convert_torch_dist_to_hf_ray.py:832-852 | the tasks are those of blocks and those of whole keys; an earlier one is larger, or as large and begins with a smaller source, then file, then has smaller keys |
| `Planner.PlanKeepsApart` | miles/tools/convert_torch_dist_to_hf_ray.py:731-766 | without a target no task holds whole keys of two groups |
| `Planner.PlannedExactlyOnce` | miles/tools/convert_torch_dist_to_hf_ray.py:832-852 | for distinct keys, each key on the whole route is in exactly one task, each storage chunk of a direct key in exactly one task, once |
| `Dispatcher.CollectRayResults` | miles/tools/convert_torch_dist_to_hf_ray.py:1164-1219 | for every order of completion each worker runs exactly the tasks it was ready for, in order: the first round goes round, every later task goes to whoever is ready then; the returned list is that of all task ids, sorted, and does not depend on the order |
| `Dispatcher.AssignedIsHanded` | miles/tools/convert_torch_dist_to_hf_ray.py:1192-1215 | under every order of completion every task is given to exactly one worker, once |
| `Dispatcher.TasksCanPart` | miles/tools/convert_torch_dist_to_hf_ray.py:1198-1215 | with two workers or more, any two tasks are brought to different workers by some order of completion |
| `Dispatcher.Refill` | miles/tools/convert_torch_dist_to_hf_ray.py:1198-1215 | every completion keeps submitted equal to finished plus pending, at most one task in flight per worker, and no idle worker while tasks are left |
| `Dispatcher.FirstRound` | miles/tools/convert_torch_dist_to_hf_ray.py:1192-1196 | the first round gives every worker one task |
| `Dispatcher.SortedResults` | miles/tools/convert_torch_dist_to_hf_ray.py:1218 | sorting any completion order by task id gives 0 to n - 1 |
| `Sharding.ShardWriter.AppendToShards` | miles/tools/convert_torch_dist_to_hf_ray.py:934-955 | appending keeps the shards and the open dictionary those of the greedy packing of everything written so far, across calls, and returns the bytes added |
| `Sharding.ShardWriter.FlushShard` | miles/tools/convert_torch_dist_to_hf_ray.py:922-931 | the manifest lists what is in the dictionary when it is saved, and the size |
| `Sharding.ShardWriter.AppendOne` | miles/tools/convert_torch_dist_to_hf_ray.py:945-954 | when a tensor no longer fits, the shared dictionary is cleared for the next shard, and the new manifest and all earlier ones keep what they list |
| `Sharding.ShardWriter.WriteGroups` | miles/tools/convert_torch_dist_to_hf_ray.py:1001-1040 | the shards of a task are the dictionaries of the greedy packing of all groups in order; their sizes count every tensor written, also one that a later tensor of the same name overwrites |
| `Sharding.AsDictHolds` | miles/tools/convert_torch_dist_to_hf_ray.py:952 | a dictionary holds every name once, with the tensor assigned to it last |
| `Sharding.PackingIsUnique` | miles/tools/convert_torch_dist_to_hf_ray.py:946-954 | what is written decides the shards |
| `Sharding.PackedDistinct` | miles/tools/convert_torch_dist_to_hf_ray.py:946-954 | with distinct names the shards hold everything in order, none is empty, and each size is that of its tensors |
| `Sharding.ShardsBound` | miles/tools/convert_torch_dist_to_hf_ray.py:945-954 | for two shards of a task or more, (n - 1) times the file size limit is less than twice the bytes written, and only a shard of a single tensor exceeds the limit |
| `Sharding.PackedPart` | miles/tools/convert_torch_dist_to_hf_ray.py:945-954 | shards hold nothing that was not written, whatever the names, and none is empty |
| `Sharding.SaveTensors` | miles/tools/convert_torch_dist_to_hf.py:105-126 | the serial writer packs the same way, except that it leaves an empty first shard exactly when there is nothing to write or the first tensor alone exceeds the chunk size; a repeated name keeps its last tensor, and the total counts both |
| `Sharding.SerialIndex` | miles/tools/convert_torch_dist_to_hf.py:128-134 | the serial index has exactly the names of the shards, each mapped to the last file that holds it |
| `Sharding.PlanGlobalShards` | miles/tools/convert_torch_dist_to_hf_ray.py:1222-1237 | finalization fails exactly when no shard was emitted or two emitted tensors share a name; otherwise names, keys, bytes, total size and the weight map are those of the shards in task order |
| `Sharding.ShardsInTaskOrder` | miles/tools/convert_torch_dist_to_hf_ray.py:1223 | the final shards are those of the results in ascending order of task ids, whatever order these came in |
| `Sharding.FinalNamesDiffer` | miles/tools/convert_torch_dist_to_hf_ray.py:1229-1230 | no two shards get the same final file name, also beyond five digits |
| `TensorNames.ShardNameInFull` | miles/tools/convert_torch_dist_to_hf_ray.py:1230 | the shard name spelled out: number and total with at least five digits, zeros only to make up five |
| `TensorNames.ShardNamesDiffer` | miles/tools/convert_torch_dist_to_hf_ray.py:1230 | the zero-padded shard name determines the shard number |
| `TensorNames.ExpertNamesDiffer` | miles/tools/convert_torch_dist_to_hf_ray.py:565-566 | under one prefix an expert weight's name determines layer, expert and projection |
| `TensorNames.PrefixesDiffer` | miles/tools/convert_torch_dist_to_hf_ray.py:467-472 | names with and without the language-model prefix never coincide |
| `Cores.DirectNameAgrees` | miles/tools/convert_torch_dist_to_hf_ray.py:565-566 | of the five expert namings of the cores, the direct route's name is the core's exactly for an unprefixed key with a plain core or a prefixed key with the Kimi VL core |
| `Cores.DirectNameInFull` | miles/tools/convert_torch_dist_to_hf_ray.py:565-566 | the direct route's and the plain cores' name, spelled out for every layer, expert and projection |
| `Cores.KimiVlNameInFull` | miles/miles/backends/megatron_utils/megatron_to_hf/kimi_vl.py:44-69 | the Kimi VL core's name, spelled out |
| `Cores.InklingNameInFull` | miles/miles/backends/megatron_utils/megatron_to_hf/inkling.py:170-191 | the Inkling core's name of an unprefixed key, spelled out |
| `Cores.Qwen35NameInFull` | miles/miles/backends/megatron_utils/megatron_to_hf/qwen3_5.py:79-91 | the Qwen 3.5 core's name, spelled out |
| `Cores.KimiK3NameInFull` | miles/miles/backends/megatron_utils/megatron_to_hf/kimi_k3.py:58-75 | the Kimi K3 core's name, spelled out, with projections w1, w3 and w2 |
| `Cores.ExpertCallsAgree` | miles/miles/backends/megatron_utils/megatron_to_hf/kimi_k3.py:58-75 | for one expert of an even number of rows, what a core of a family makes of it (two halves, all rows, the tensor unsplit, or an error) is what the direct route makes of it if and only if the naming is the same |
| `Cores.ForeignName` | miles/miles/backends/megatron_utils/megatron_to_hf/inkling.py:170-191 | no expert name of the Inkling, Qwen 3.5 and Kimi K3 cores is the direct route's name of any expert |
| `RayRefinement.FamilyAgreement` | miles/miles/backends/megatron_utils/megatron_to_hf/kimi_vl.py:44-69 | on a source of the direct route that has experts, a core that follows its family makes the direct route's calls if and only if the naming is the same |
| `RayRefinement.DirectConvertibleIff` | miles/tools/convert_torch_dist_to_hf.py:65-81 | the serial loop takes a source of the direct route apart if and only if it has the expected number of experts and the core takes every expert |
| `RayRefinement.FamilyConvertibleIff` | miles/tools/convert_torch_dist_to_hf.py:65-81 | for a core of a family: if and only if it has the expected number of experts and, unless that is zero, the core knows the key's prefix |
| `SerialConversion.SerialIsPerSource` | miles/tools/convert_torch_dist_to_hf.py:99-119 | the serial loop succeeds if and only if every source can be taken apart and the core takes every part; its calls are those of each source in turn |
| `RayRefinement.SourceUnitsCalls` | miles/tools/convert_torch_dist_to_hf_ray.py:573-643 | chunk by chunk or whole, a source's units make its calls: every slice of the tensor under the direct route's names, or what the core makes of the key |
| `RayRefinement.TasksMakeAllCalls` | miles/tools/convert_torch_dist_to_hf_ray.py:976-998 | all tasks of a plan together make exactly the calls of all sources, for every core |
| `RayRefinement.TasksMakeSerialCalls` | miles/tools/convert_torch_dist_to_hf_ray.py:976-998 | they are the serial loop's calls if the direct route makes the serial calls of its sources |
| `RayRefinement.WorkersMakeAllCalls` | miles/tools/convert_torch_dist_to_hf_ray.py:1082-1093 | whatever worker runs which task, all workers together make the calls of all tasks |
| `RayRefinement.RayRefinesSerial` | miles/tools/convert_torch_dist_to_hf_ray.py:1082-1115 | for every core, plan, number of workers and completion order, the workers hand on what the units hand on directly and, of the serial loop's joined outputs, only those of which one worker got all pieces; if the direct route makes the serial calls, exactly the other joined outputs are missing |
| `RayRefinement.NothingCollectedNothingLost` | miles/tools/convert_torch_dist_to_hf_ray.py:987-992 | a core that hands on every tensor directly is never affected by splitting |
| `FamilyRefinement.SerialFailsIff` | miles/tools/convert_torch_dist_to_hf.py:65-81 | for a core of a family: the serial loop raises an error if and only if a source converted whole does, or a source of the direct route has another number of experts than expected or experts under a prefix the core does not know |
| `FamilyRefinement.NamingNeeded` | miles/tools/convert_torch_dist_to_hf_ray.py:565-566 | if all that the serial loop hands on for direct sources is handed on by the direct route, every direct source with experts goes by the core's names |
| `FamilyRefinement.FamilyRefinesSerial` | miles/tools/convert_torch_dist_to_hf_ray.py:1082-1115 | for a core of a family, every plan, number of workers and completion order hands on the serial outputs if and only if no joined output is split and every direct source with experts goes by the core's names; handing on at least the serial outputs already takes both |
| `OrderSafety.SafeIsUnsplit` | miles/tools/convert_torch_dist_to_hf_ray.py:1198-1215 | when every joined output has its pieces in one task, or there is one worker, no order of completion splits an output |
| `OrderSafety.UnsafeIsSplit` | miles/tools/convert_torch_dist_to_hf_ray.py:1198-1215 | with two workers or more, an output with pieces in two tasks is split by some order of completion |
| `OrderSafety.EveryOrder` | miles/tools/convert_torch_dist_to_hf_ray.py:1198-1215 | no order of completion splits a joined output if and only if there is one worker or every joined output has all its pieces in one task |
| `OrderSafety.PlanIsOrderFree` | miles/tools/convert_torch_dist_to_hf_ray.py:832-852 | the same for every plan of the planner, every number of workers and every core that stashes nothing of direct experts: the calls of its tasks alone decide; if the direct route makes the serial calls, every order gives the serial outputs under exactly that condition |
| `OrderSafety.FamilyIsOrderFree` | miles/tools/convert_torch_dist_to_hf_ray.py:832-852 | for a core of a family: every order gives the serial outputs if and only if the plan is safe and every direct source with experts goes by the core's names |
| `OrderSafety.PairsAreNeverSplit` | miles/tools/convert_torch_dist_to_hf_ray.py:720-724 | with a core that collects only MLA pairs every plan with MLA grouping is safe, whatever the number of workers |
| `SplitOutputs.SplitAcrossGroups` | miles/tools/convert_torch_dist_to_hf_ray.py:752-769 | without a target and with two workers or more, some order of completion keeps pieces of an output from two whole keys of different groups apart, so that no worker ever has all pieces, whatever the core makes of all other keys |
| `SplitOutputs.SplitIsLost` | miles/tools/convert_torch_dist_to_hf_ray.py:1082-1115 | such an output is handed on less often than by the serial loop |
| `SplitOutputs.CollectedOutputIsLost` | miles/tools/convert_torch_dist_to_hf_ray.py:1082-1115 | for any core that collects parameters across keys, any checkpoint, any plan without a target and two workers or more: some order of completion loses the joined output |
| `SplitOutputs.InklingCheckpointLosesGate` | miles/miles/backends/megatron_utils/megatron_to_hf/inkling.py:159-164 | so it is with the gate of any layer whose two router weights are source keys of their own, stacked over the layers or not, with experts on the direct route or not |
| `SplitOutputs.HyperConnectionScaleIsLost` | miles/miles/backends/megatron_utils/megatron_to_hf/deepseekv4.py:9-25 | and with the scales of any DeepSeek V4 or GLM-5 next hyper-connection |
| `SplitOutputs.InklingGateLost` | miles/miles/backends/megatron_utils/megatron_to_hf/inkling.py:159-164 | the smallest case: the two router weights of a layer, on two workers, hand on nothing, where the serial loop hands on the joined gate |
| `RayIndex.TaskOutputsAreCollected` | miles/tools/convert_torch_dist_to_hf_ray.py:1082-1093 | the outputs of all tasks, with the stash carried from task to task, are what the workers hand on |
| `RayIndex.ShardsHoldResults` | miles/tools/convert_torch_dist_to_hf_ray.py:1223 | the final shards hold what the results hold, in whatever order these arrived |
| `RayIndex.FinalShards` | miles/tools/convert_torch_dist_to_hf_ray.py:1222-1237 | when the results are part of tensors with distinct names, finalization finds no duplicate, has shards exactly if anything was handed on, and its names are all names exactly if everything was |
| `Conversion.EndToEnd` | miles/tools/convert_torch_dist_to_hf_ray.py:1240-1252 | for a core of a family, every plan, assignment of its tasks to workers and order of results: finalization succeeds and leaves the tensors of the serial shards, the serial index's key set and its total size, if and only if no joined output was split, every direct source with experts goes by the core's names, and there is anything to write |
| `Conversion.AlikeEndToEnd` | miles/tools/convert_torch_dist_to_hf_ray.py:1240-1252 | for any core whose serial calls the direct route makes: if and only if no joined output was split and there is anything to write |
| `Conversion.EveryRunAgrees` | miles/tools/convert_torch_dist_to_hf_ray.py:1296-1334 | for a plan and a number of workers: every run they allow leaves what the serial conversion leaves if and only if the plan is safe, every direct source with experts goes by the core's names, and there is anything to write |
| `Converters.ConvertSerial` | miles/tools/convert_torch_dist_to_hf.py:99-134 | the serial program, composed: conversion in one process, shards, index and total size; it fails exactly if a source cannot be taken apart or the core raises an error |
| `Converters.ConvertWorker` | miles/tools/convert_torch_dist_to_hf_ray.py:1082-1115 | a worker converts its tasks in turn, with the stash carried over, and writes each to shards of its own |
| `Converters.TasksFailIff` | miles/tools/convert_torch_dist_to_hf_ray.py:976-998 | some task of a plan raises an error if and only if a source that is converted whole does; tasks of chunks never call the core |
| `Converters.ErrorsCompared` | miles/tools/convert_torch_dist_to_hf_ray.py:573-643 | for every plan: the serial loop raises an error if and only if a task does or a direct source has experts that the serial loop refuses, which the parallel converter converts all the same |
| `Converters.ConvertRay` | miles/tools/convert_torch_dist_to_hf_ray.py:1296-1334 | the parallel program, composed: its plan satisfies all that is promised of plans and is the one for the given target and MLA grouping, its results are those of a run of it on as many workers as asked for, or 16, but no more than tasks, and it fails exactly if nothing was planned, a task raised, no shard was emitted or a name was emitted twice |
| `Converters.RayIsReady` | miles/miles/backends/megatron_utils/megatron_to_hf/inkling.py:37-45 | when the serial loop stashes no piece twice and none too many, neither does the parallel converter, and no source that is converted whole raises an error |
| `Converters.ProgramsAgree` | miles/tools/convert_torch_dist_to_hf_ray.py:1296-1334 | the two programs on one checkpoint that the serial one converts: a run leaves what the serial one leaves if and only if its order split no joined output and the direct sources go by the core's names, and all runs of its plan do if and only if the plan is safe and they do |
| `StandingProducer.StalenessBound` | miles/train_async.py:70-117 | the weights that rollout r is requested under lag by min(r - start, (r - 1) mod k + 1) steps when it is trained by default, and by min(r - start, r mod k) when fully asynchronous, hence by at most k, respectively k - 1 |
| `StandingProducer.StaleStep` | miles/miles/rollout/fully_async_data_buffer.py:184-204 | nothing the producer does makes another group too old; taking one from the buffer adds it to the batch or leaves fewer that are too old |
| `StandingProducer.BatchIsUsable` | miles/miles/rollout/fully_async_rollout.py:196-235 | whatever happens in a run, step r trains on a full batch of groups begun and done under versions up to that of its request, none beyond the staleness limit |
| `StandingProducer.GroupLag` | miles/miles/rollout/fully_async_data_buffer.py:184-204 | with a limit of m versions no tokens of such a batch come from weights more than (m + 1) k - 1 steps behind when the batch is trained |
| `StandingProducer.LongGroupReached` | miles/miles/rollout/fully_async_data_buffer.py:160-204 | some run hands step r a group whose generation began in any earlier step, across all updates in between, unless the limit forbids it; room for one group in the buffer and for two in generation is enough |
| `StandingProducer.GroupLagIsTight` | miles/miles/rollout/fully_async_data_buffer.py:184-204 | for every version and limit m some run hands a step a group whose oldest tokens are exactly (m + 1) k - 1 steps behind |
| `StandingProducer.NoLimitNoBound` | miles/miles/rollout/fully_async_data_buffer.py:184-204 | without a limit, for every step some run hands it a group that was generated since the start |
| `AsyncDriver.LeftOverRollouts` | miles/train_async.py:70-132 | requested and trained rollouts coincide unless the run starts at its end or the debug exit cuts it short; then exactly one is left over |
| `AsyncDriver.OneMoreRequest` | miles/train_async.py:79-83 | a request issued under the weights of the bound keeps every rollout requested once, in order, under those weights |
| `AsyncDriver.BatchesAreUsable` | miles/miles/rollout/fully_async_rollout.py:196-235 | every batch of a run is full, from versions up to that of its request, and within the limit |
| `AsyncDriver.Driver.Produce` | miles/miles/rollout/fully_async_rollout.py:144-154 | a group begins, gets done, enters the FIFO buffer unless it is full, or is taken by a drain, which drops what is too old |
| `AsyncDriver.Driver.Drain` | miles/miles/rollout/fully_async_rollout.py:196-235 | a drain ends, and collects what the specification says for everything that may happen while it waits |
| `AsyncDriver.Driver.AwaitAndRequest` | miles/train_async.py:71-83 | the step has rollout r's data at hand, a fresh batch in the fully asynchronous mode, and requests the next one unless that is deferred past an update |
| `AsyncDriver.Driver.UpdateWeights` | miles/train_async.py:115 | an update also reaches every generation in flight for a request, which then has seen two versions |
| `AsyncDriver.Driver.PublishWhenDue` | miles/train_async.py:110-117 | by default a generation for a request is awaited before the update, so that it sees one version; fully asynchronous, the producer goes on, and the next drain is asked for under the new version |
| `AsyncDriver.Driver.Run` | miles/train_async.py:69-132 | step r trains rollout r with exactly the earlier rollouts freed, every rollout is requested once and freed once, nothing freed is used, and every request is made under the weights of the staleness bound; by default no other weights were in the engines while the rollout was generated; fully asynchronous, step r was handed the batch that its drain collects, for everything the producer may do |
| `SyncDriver.Cluster.Run` | miles/train.py:25-171 | a gpu peak that is not wired, and snapshot evals without an interval or under colocation, are refused; otherwise every rollout is dispatched once and in order, and every rollout and eval dispatch finds engine weights and KV cache resident and carrying all training steps; the eval points are exactly the first one, if the options ask for it, and the rollouts of the run that are the last, a multiple of the interval or the end of an epoch, each right after its step; the evals dispatched are these points without those skipped (exactly when the allowed number is in flight, the policy is to skip and the point is not forced) or whose export failed, none with blocking evals, and the number in flight at each point is exact; actor, critic and rollout data are saved after exactly the rollouts of the save schedule or asked for from outside, with all updates so far; colocated, the configuration and whether a step was run decide exactly whether trainer state met the KV cache and the engine weights; at the end the engines serve, unless the last rollout is trained and nothing is left to evaluate |
| `SyncDriver.PeriodicStep` | miles/miles/utils/misc.py:175-196 | deciding after each rollout whether an action is due makes the schedule: the last rollout of all, the multiples of the interval and the ends of epochs, nothing without an interval |
| `SyncDriver.Cluster.HandOver` | miles/train.py:107-119 | the engines keep what the level does not name; under the gpu peak the actor meets the weights even when they are given up |
| `SyncDriver.Cluster.HandOverAndTrain` | miles/train.py:107-131 | the hand-over and the training step leave memory with the trainers, and the overlap they cause is exactly the stated one |
| `SyncDriver.Cluster.HandBack` | miles/train.py:143-156 | the hand-back leaves the engines serving the current weights, which they hold when they receive them |
| `SyncDriver.Cluster.Save` | miles/train.py:77-92 | a save finds the state it writes resident and leaves memory as it was; it writes the actor, unless it is in its critic-only steps, then the critic, if there is one, then the rollout data, if asked for |
| `SyncDriver.Cluster.DispatchEval` | miles/miles/ray/rollout/eval_dispatch.py:27-61 | an eval point is sent unless the allowed number is in flight, after those that have settled, under the skip policy and it is not forced, or its export fails; it is recorded with what became of it, and the count in flight follows; the engines keep serving |
| `SyncDriver.Cluster.Export` | miles/miles/ray/rollout/eval_dispatch.py:67-76 | an export onloads the actor beside the serving engines and puts it away again, also when it fails |
| `SyncDriver.Cluster.OnloadWeights` | miles/miles/ray/rollout/inference_controller.py:182-186 | weights are onloaded only if the offload level names them |
| `SyncDriver.FaithfulStep` | miles/train.py:104-105 | a dispatch served with everything in place keeps the log faithful |
| `MultiPolicy.CheckpointsAreConsistent` | miles/train_multi_policy.py:179-205 | in every run every checkpoint names for every trainer the id it had just finished training, the same in the saved model and in the record |
| `MultiPolicy.NoTrainingDuringBody` | miles/train_multi_policy.py:129-168 | in every run, while the leader saves or evaluates, every follower is parked and cannot go on, so that no trainer trains or updates weights |
| `MultiPolicy.EveryStateIsSafe` | miles/miles/utils/multi_policy/parker.py:12-34 | the park contract, proved of the parker: the count is the number of parked followers, they are free to go exactly while the event is set, and the leader's body has all of them parked |
| `MultiPolicy.BodyHoldsEveryone` | miles/miles/utils/multi_policy/parker.py:18-26 | while the body runs every follower is parked at its site, not woken |
| `MultiPolicy.HeldDictionary` | miles/train_multi_policy.py:196-205 | with all followers held, the dictionary of ids is what every trainer has just finished |
| `MultiPolicy.LeaderKeeps` | miles/train_multi_policy.py:129-176 | every step of the leader keeps the park invariant |
| `MultiPolicy.FollowerKeeps` | miles/miles/utils/multi_policy/parker.py:28-32 | every step of a follower keeps the park invariant |
| `MultiPolicy.CollectingEnds` | miles/miles/utils/multi_policy/parker.py:34-40 | a wait for all followers is over after at most seven follower steps each; each step brings it closer and everyone not there can step |
| `MultiPolicy.EmptyingEnds` | miles/miles/utils/multi_policy/parker.py:19-21 | a wait for the site to empty is never prolonged, and whoever is parked there can leave |
| `MultiPolicy.NoDeadlock` | miles/train_multi_policy.py:129-176 | no reachable state is stuck before the leader is done |
| `MultiPolicy.RecordsAreDistinct` | miles/train_multi_policy.py:204-205 | checkpoints are recorded under strictly growing leader ids, so that none is overwritten |
| `MultiPolicy.EveryRunIsOnSchedule` | miles/train_multi_policy.py:122-176 | in every run every trainer sends its weights after exactly the rounds that are multiples of the update interval, in order; the leader evaluates after exactly the periodic rounds and saves after all of them; and when it is done it has been through all rounds up to the last or the debug exit |
| `Nvfp4.EntryNames` | miles/tools/convert_hf_to_nvfp4.py:294-305 | the four entries of a quantised key have four different names |
| `Nvfp4.EntriesDisjoint` | miles/tools/convert_hf_to_nvfp4.py:294-305 | the entries of two different plain weight keys share no name |
| `Nvfp4.SplitGatedPairNameIff` | miles/tools/convert_hf_to_nvfp4.py:257-261 | a name splits into base and role if and only if it is the base followed by .gate_proj.weight or .w1.weight for a gate, by .up_proj.weight or .w3.weight for an up |
| `Nvfp4.FileMeaningIsUnique` | miles/tools/convert_hf_to_nvfp4.py:313-403 | the order-free content of a converted file is unique |
| `Nvfp4.CollectGatedPairLocations` | miles/tools/convert_hf_to_nvfp4.py:264-291 | collection fails exactly on a repeated role of a base, and otherwise finds exactly the complete pairs |
| `Nvfp4.HoldsUnion` | miles/tools/convert_hf_to_nvfp4.py:387-400 | adding a key's entries to what a file holds so far keeps the order-free content of the visited keys |
| `Nvfp4.PartnerIsMutual` | miles/tools/convert_hf_to_nvfp4.py:355-361 | the partner of a gate is its up and vice versa, in the file the location names |
| `Nvfp4.SkipTurn` | miles/tools/convert_hf_to_nvfp4.py:343-344 | a key whose entries are already there needs nothing |
| `Nvfp4.PopTurn` | miles/tools/convert_hf_to_nvfp4.py:345-348 | a deferred entry is popped into its own file and the deferred table stays exact |
| `Nvfp4.JointTurn` | miles/tools/convert_hf_to_nvfp4.py:355-381 | the first half of a pair quantises both once, writes its own half and defers or writes the other |
| `Nvfp4.SingleTurn` | miles/tools/convert_hf_to_nvfp4.py:383-384 | an unpaired key is quantised alone |
| `Nvfp4.CopyTurn` | miles/tools/convert_hf_to_nvfp4.py:385-400 | a key that is not quantised is copied |
| `Nvfp4.Converter.QuantizePair` | miles/tools/convert_hf_to_nvfp4.py:359-380 | one joint quantisation, each half to its own file |
| `Nvfp4.Converter.VisitKey` | miles/tools/convert_hf_to_nvfp4.py:342-400 | visiting a key never raises the missing-output error |
| `Nvfp4.Converter.ProcessFile` | miles/tools/convert_hf_to_nvfp4.py:313-403 | whatever the order of the files before it and of its keys, a file's output is its order-free content |
| `Nvfp4.NothingOwed` | miles/tools/convert_hf_to_nvfp4.py:462-466 | after all files no deferred entry is left |
| `Nvfp4.ConvertNvfp4` | miles/tools/convert_hf_to_nvfp4.py:440-466 | for every file and key order conversion succeeds exactly if no weight rejects collection; every file then holds its order-free content and every pair was quantised jointly exactly once |
| `Nvfp4.EveryEntry` | miles/tools/convert_hf_to_nvfp4.py:353-384 | entry by entry, what a converted file holds for a quantised weight: as the gate or the up half of one joint call with the weight of the other role of its base, if the checkpoint has that quantised, and by a call of its own otherwise, under stem.weight, .weight_scale, .weight_scale_2 and .input_scale |
| `Mxfp4Cast.UnpackAt` | miles/tools/convert_mxfp4_to_fp8.py:37-38 | column 2c holds the low nibble and column 2c + 1 the high nibble of byte c |
| `Mxfp4Cast.TileMaxCodeBounds` | miles/tools/convert_mxfp4_to_fp8.py:43-44 | the tile maximum bounds every group exponent of the tile |
| `Mxfp4Cast.TileMaxCodeAttained` | miles/tools/convert_mxfp4_to_fp8.py:43-44 | the tile maximum is one of them |
| `Mxfp4Cast.StoredElement` | miles/tools/convert_mxfp4_to_fp8.py:42-46 | through tiling, offsets and un-tiling, the element at (row, column) is rescaled by the group scale of that row and column over its own tile's scale |
| `Mxfp4Cast.CastIsExactIff` | miles/tools/convert_mxfp4_to_fp8.py:45-49 | a value at distance d below the tile maximum is stored exactly if and only if it is lossless at d |
| `Mxfp4Cast.TableIsFormat` | miles/tools/convert_mxfp4_to_fp8.py:22-25 | the lookup table is E2M1: twice the value of each of the sixteen codes, from its sign bit, exponent field and mantissa bit |
| `Mxfp4Cast.CastIsLosslessIff` | miles/tools/convert_mxfp4_to_fp8.py:29-49 | for all inputs that pass the shape checks every output is an E4M3 value, and output times tile scale equals the E2M1 value of the nibble, decoded by its fields, times group scale at the same (row, column), if and only if the exponents of group and tile differ by at most 14 or twice the value is divisible by two to the power of the difference less 14 |
| `Mxfp4Cast.FifteenBreaksOddHalves` | miles/tools/convert_mxfp4_to_fp8.py:40-49 | at distance fifteen exactly the magnitudes 0.5 and 1.5 are no longer exact |
| `E4M3.GridIsFormat` | miles/tools/convert_mxfp4_to_fp8.py:49 | the magnitudes of the arithmetic grid are exactly the finite E4M3 values |
| `E4M3.RoundIsNearest` | miles/tools/convert_hf_to_fp8.py:65 | no value of the grid is nearer to a magnitude than the one it is rounded to |
| `E4M3.RoundTiesToEven` | miles/tools/convert_hf_to_fp8.py:65 | when another grid value is as near, the one picked is even in the steps of its binade |
| `E4M3.EvenStepIsEvenMantissa` | miles/tools/convert_hf_to_fp8.py:65 | the even grid values are those with an even mantissa |
| `E4M3.RoundError` | miles/tools/convert_hf_to_fp8.py:65 | the rounding error is at most a sixteenth of the magnitude or half the smallest step |
| `E4M3.CastIsNearest` | miles/tools/convert_hf_to_fp8.py:65 | the signed cast gives a nearest E4M3 value, within a sixteenth or half the smallest step |
| `E4M3.CastTiesToEven` | miles/tools/convert_hf_to_fp8.py:65 | half way between two values the signed cast gives the one with the even mantissa |
| `BlockFp8.BlockMaxBounds` | miles/tools/convert_hf_to_fp8.py:57-58 | the block maximum bounds every magnitude of its tile, padding included |
| `BlockFp8.BlockMaxAttained` | miles/tools/convert_hf_to_fp8.py:57-58 | the block maximum is attained in its tile |
| `BlockFp8.SameScaleCell` | miles/tools/convert_hf_to_fp8.py:60-68 | the dequantisation kernel multiplies element (i, j) with the scale cell the quantiser divided it by |
| `BlockFp8.QuantisedElement` | miles/tools/convert_hf_to_fp8.py:60-67 | the clamp never saturates and the stored code is a nearest one |
| `BlockFp8.RoundTripError` | miles/tools/convert_hf_to_fp8.py:35-70 | quantise then dequantise returns every element within max(abs(w)/16, blockmax/458752) |
| `DequantKernel.RaceFree` | miles/tools/fp8_cast_bf16.py:17-27 | two lanes that store to the same address are the same lane |
| `DequantKernel.Covered` | miles/tools/fp8_cast_bf16.py:36-39 | every cell of the output is stored by a lane of the grid |
| `DequantKernel.Store` | miles/tools/fp8_cast_bf16.py:20-27 | a lane stores its product in range and touches nothing else |
| `DequantKernel.WeightDequant` | miles/tools/fp8_cast_bf16.py:30-40 | every order of all stores of all programs gives the same output, the specified one |
| `DequantKernel.LaneComputesCell` | miles/tools/fp8_cast_bf16.py:20-26 | a lane's scale address is the cell of its tile and in range |
| `Int4Pack.PackIsWrappedDigits` | miles/tools/convert_hf_to_int4_direct.py:65-68 | summing shifted lanes in int32 is packing digits modulo 2^32 |
| `Int4Pack.ExtractPacked` | miles/tools/convert_hf_to_int4_direct.py:65-68 | every lane can be read back from the wrapped word |
| `Int4Pack.PackRowRoundTrip` | miles/tools/convert_hf_to_int4_direct.py:56-68 | a row of any length, padded or not, unpacks to itself |
| `Int4Pack.PackRoundTrip` | miles/tools/convert_hf_to_int4_direct.py:30-73 | packing then lane extraction is the identity for every width 1 to 8, either dimension, signed or unsigned |
| `Int4Pack.PackedShape` | miles/tools/convert_hf_to_int4_direct.py:51-63 | packing n values along either dimension takes the least number of words that hold 32 / bits values each |
| `Int4Pack.PackedWords` | miles/tools/convert_hf_to_int4_direct.py:56-68 | value g * (32 / bits) + k of a row or column is lane k of word g, bits [k * bits, (k + 1) * bits), up to the signed offset 2^(bits - 1) |
| `Int4Pack.PackIsInjective` | miles/tools/convert_hf_to_int4_direct.py:30-73 | different matrices never pack to the same words |
| `Int4Pack.CastsRepairOverflow` | miles/tools/convert_hf_to_int4_direct.py:46-48 | the int8 addition may overflow and the uint8 cast repairs it |
| `Int4Pack.ZeroPointRoundTrip` | miles/tools/convert_hf_to_int4_direct.py:136-139 | every zero point of a group of eight can be read back from its lane |
| `Int4Pack.ZeroPointMatrixRoundTrip` | miles/tools/convert_hf_to_int4_direct.py:132-139 | every weight row's zero point sits alone in its own lane of its group's row |
| `Mxfp8Scale.PatternRoundTrip` | miles/tools/convert_hf_to_mxfp8.py:98-109 | a non-negative power-of-two pattern survives the trip through its exponent byte |
| `Mxfp8Scale.ByteKeepsValue` | miles/tools/convert_hf_to_mxfp8.py:102-109 | the byte keeps the scale's value if and only if its exponent field is 1 to 254 |
| `Mxfp8Scale.Binary32Steps` | miles/tools/convert_hf_to_mxfp8.py:102-109 | the binary32 values it compares with: from zero upwards consecutive patterns are one unit in the last place apart, up to infinity |
| `Mxfp8Scale.LoadedIff` | miles/tools/convert_hf_to_mxfp8.py:89-110 | a binary32 scale has bytes if and only if every pattern of the tiles in use is non-negative with an empty mantissa, a byte scale always has; both are handed on cropped and otherwise as they are |
| `Mxfp8Scale.LoadedFormsAgree` | miles/tools/convert_hf_to_mxfp8.py:89-110 | the binary32 and the byte form of a loaded scale determine each other |
| `Mxfp8Scale.SourceToMxfp8` | miles/tools/convert_hf_to_mxfp8.py:113-118 | the expansion has one scale per row and 32 columns |
| `Mxfp8Scale.GroupScaleIsTileScale` | miles/tools/convert_hf_to_mxfp8.py:113-118 | the group scale of an element is the scale of its tile |
| `Mxfp8Scale.ExpansionKeepsElements` | miles/tools/convert_hf_to_mxfp8.py:89-118 | an element keeps its dequantised value if and only if its tile's exponent field is 1 to 254, or the field and the element are both zero |
| `Mxfp8Scale.ScaledByByteIff` | miles/tools/convert_hf_to_mxfp8.py:102-109 | scaling by the byte equals scaling by the binary32 scale under exactly that condition |
| `Mxfp8Scale.EdgeCodesDiffer` | miles/tools/convert_hf_to_mxfp8.py:102-109 | the bytes 0 and 255 change meaning |
| `AutoPipeline.LayersPerStage` | miles/tools/convert_hf_to_torch_dist.py:72-73 | the negated division rounds up |
| `AutoPipeline.ConversionArgs.ChoosePipelineSize` | miles/tools/convert_hf_to_torch_dist.py:75-102 | the search ends; it applies exactly when no parallelism is asked for and the world size is a multiple, by more than one, of the expert-parallel size; otherwise it keeps the arguments; it succeeds exactly if the odd part of the ranks left to the pipeline fits, and then returns the first fitting value of the halving order |
| `AutoPipeline.SearchSucceedsIff` | miles/tools/convert_hf_to_torch_dist.py:87-102 | some value of the halving order fits if and only if the odd part of the first does: one check, before the search |
| `AutoPipeline.HalvingKeepsFit` | miles/tools/convert_hf_to_torch_dist.py:88-98 | halving a value that fits keeps it fitting |
| `AutoPipeline.FittingSplitIsBalanced` | miles/tools/convert_hf_to_torch_dist.py:88-95 | a fitting value gives 1 <= last <= ceil(L/pp), stages that add up to L, and pp <= L |
| `AutoPipeline.OddCandidateIsLast` | miles/tools/convert_hf_to_torch_dist.py:97-102 | below an odd value there is nothing left to try |
| `AutoPipeline.PowerOfTwoNeverFails` | miles/tools/convert_hf_to_torch_dist.py:87-102 | a power of two never fails: its odd part is a single stage |
| `AutoPipeline.OddWorldCanFail` | miles/tools/convert_hf_to_torch_dist.py:99-102 | every number of ranks whose odd part exceeds the layers fails |
| `AutoPipeline.ThreeRanksFourLayersFail` | miles/tools/convert_hf_to_torch_dist.py:99-102 | so do three ranks and four layers, although the odd part does not exceed them |

## Left out

- Storage, safetensors, distributed checkpoint, Ray, CUDA, Triton and asyncio mechanics: files are maps and sequences, kernels are per-lane stores, awaiting is "any time later".
- Quantisation inside the parallel converter (`quantize_params`) and its device assignment: the comparison is of the unquantised conversion.
- Removal of vocabulary padding: part of the conversion core, which is a parameter.
- Conversion cores beyond their expert naming, their errors on experts and what they collect: what a core makes of other parameters, calls or an error, is arbitrary.
- Converters.ConvertSerial: expects of the core that it stashes no piece of an output twice and no more than the output has, as the refusal of an overfull bucket does.
- Converters.ConvertRay: expects the same of the core; a task that raises is found before the conversion starts rather than when its result is fetched; the order in which a task's units are read is any.
- Conversion.EndToEnd: compares conversions whose serial outputs have distinct names; a repeated name is overwritten silently by the serial converter and within one shard, and refused by the finalization across shards.
- Parsing of names by regular expressions: layer, expert and prefix are fields of a structured name.
- RayRefinement.RayRefinesSerial: takes the tensors of whole keys as loaded, and of direct keys that they have the recorded, non-empty size and are tiled by their chunks.
- Planner.PlanConversionTasks: no negative task group target; blocks of the same source and file are not ordered further by offset, as there is one block per source and file.
- Planner.CreateMoeBlockSpecs: a chunk without cells passes or fails by its offsets and lengths alone; what consists of whole projections is said of chunks with cells.
- Planner.CollectMoeBlocksByFile: removes the direct sources from the dictionary in one filter instead of one deletion each.
- Dispatcher.CollectRayResults: a wait always returns a finished task; timeouts, progress ticks, worker failures and node placement are not modelled.
- AsyncDriver.Driver.Run: saves, evals and the offloading of the critic path, which touch neither rollouts nor versions; a generation for a request counts as started with it.
- AsyncDriver.Driver.Produce: groups in generation or waiting for the buffer are limited by a number that the results leave open (the code counts groups or, by default, unfinished samples); aborted and filtered groups never reach the buffer, and a recycled prompt is a new group.
- AsyncDriver.Driver.Drain: every group records the versions of its tokens (groups without a record are accepted by the code at any age); a producer that dies is not modelled.
- SyncDriver.Cluster.Run: how many evals have settled by each eval point, whether its export works and after which rollouts a save is asked for are given from outside; memory is resident or not per component; CUDA graphs, gradient buffers, cache clearing and what an update onloads for its own duration are not modelled; without colocation engines and trainers do not share GPUs and nothing is claimed of what they hold together.
- MultiPolicy.EveryRunIsOnSchedule: the eval before the first round is not modelled; a round that is not periodic may be saved as well, when asked for from outside.
- MultiPolicy.NoDeadlock: no step fails and the parker's deadline is not reached; an external save request may come at any round.
- MultiPolicy.EveryStateIsSafe: cancellation of followers only after the leader is done.
- Nvfp4.ConvertNvfp4: which weights are quantised is given per key; the list of modules not converted and the configuration files are not modelled; keys are unique across files and contain ".weight" only at the end.
- BlockFp8.RoundTripError: blocks are not all zero, and the quotient and scale are exact, without binary32 rounding; the kernel's bfloat16 output rounding is not modelled.
- Mxfp4Cast.CastIsLosslessIff: negative zero is zero; tile scales are exact powers of two, without binary32 underflow.
- Mxfp8Scale.ExpansionKeepsElements: two-dimensional weights, no leading batch dimensions.
- Int4Pack.PackRoundTrip: the integer quantisation before packing and the CUDA kernel that finds scales are not modelled; the reader is lane extraction.
- Per-channel and per-tensor FP8, parallel file workers, launch scripts, dashboards, build tools and agent clients: easy claims beside the ones above.
