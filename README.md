# Isosurface compute scheduling, modelled in Dafny

This project models the per-frame scheduling step of `bevy_isosurface`: the render-graph
node `IsosurfaceComputeNode`, whose `run` records the GPU compute work of one frame. The
node first resolves its three compute pipelines (find vertices, connect vertices, prepare
the indirect buffer) through the pipeline cache. If any of them is not compiled yet, it
returns `Ok` without opening a compute pass. Otherwise it opens one compute pass and walks
the `CalculateIsosurfaces` work list in order:

- it skips entries that are not ready;
- it stops the whole frame, with one error message, at the first ready entry whose asset
  or bind group is missing, keeping what was already recorded;
- for every other ready entry it binds the asset's bind group at slot 0 and dispatches the
  three stages: the first two sized by the asset's `grid_density`, the third as a single
  workgroup. It then logs `dispatch done`.

The model has three modules:

- `Gpu` (`gpu.dfy`) holds what the node can observe of the GPU side. `ComputePass` is an
  append-only command log. `CommandEncoder` keeps the commands of every pass once that pass
  is ended. `Log` collects the `info!`/`error!` events. `u32` and `UVec3` are the workgroup
  count types.
- `Schedule` (`schedule.dfy`) gives the scheduling rule as pure functions. `Trace` is the
  frame for given inputs: its commands, its log and why it stopped. `TraceFrom` is the
  loop over the work list. The lemmas state the rule's properties.
- `Node` (`node.dfy`) holds the imperative node. `IsosurfaceComputeNode.Run` has the
  source's `for` loop with `continue` and early returns, and it is proved to record exactly
  `Trace` into one pass and to return `Ok`. `RunTwice` shows that two runs on the same
  inputs record the same thing.

The render world's resources are passed to `Run` as values. The pipeline cache is a map
from cached pipeline ids to compiled pipelines; a pipeline that is still compiling is
simply absent. The asset storage and the bind-group collection are maps keyed by asset id.
The compute pass is ended when it goes out of scope, on every exit from `run`. The model
makes this explicit with `CommandEncoder.EndComputePass`, so a frame that stops early still
submits the commands it recorded before the stop.

## Model

| member | source | states |
|---|---|---|
| `Gpu.ComputePass.SetBindGroup` | src/compute/node.rs:62 | appends exactly one bind-group command for the given slot and group to the pass |
| `Gpu.ComputePass.SetPipeline` | src/compute/node.rs:63-67 | appends exactly one set-pipeline command to the pass |
| `Gpu.ComputePass.DispatchWorkgroups` | src/compute/node.rs:64-68 | appends exactly one dispatch command with the given workgroup counts to the pass |
| `Gpu.CommandEncoder.BeginComputePass` | src/compute/node.rs:42-43 | yields a new, empty pass and leaves the encoder's finished passes unchanged |
| `Gpu.CommandEncoder.EndComputePass` | src/compute/node.rs:43-72 | a dropped pass contributes everything it recorded, as one more finished pass |
| `Gpu.Log.Info` | src/compute/node.rs:69 | appends one info event with the given message |
| `Gpu.Log.Error` | src/compute/node.rs:54-58 | appends one error event with the given message |
| `Schedule.TraceFrom` | src/compute/node.rs:49-70 | the loop never reports unready pipelines, and it runs to completion exactly when every ready entry finds both its asset and its bind group |
| `Schedule.Trace` | src/compute/node.rs:27-71 | the frame opens no pass exactly when one of the three pipelines is missing, and in that case records no command and logs nothing, whatever the work list; it completes exactly when the pipelines resolve and every ready entry is resolvable |
| `Schedule.ReadyEntryBlock` | src/compute/node.rs:61-69 | a ready entry with asset and bind group records bind group at slot 0, find pipeline, dispatch of the grid density, connect pipeline, dispatch of the grid density, prepare pipeline, dispatch (1,1,1), in that order, and logs one `dispatch done` |
| `Schedule.TraceAppend` | src/compute/node.rs:49-70 | entries are processed in work-list order: the frame of `pre + post` is the frame of `pre` followed by that of `post` when `pre` completes, and is just the frame of `pre` (later entries unseen) when `pre` stops early |
| `Schedule.NotReadySkipped` | src/compute/node.rs:50-52 | removing an entry that is not ready from any position leaves commands, log and outcome unchanged |
| `Schedule.LookupsOnlyForReady` | src/compute/node.rs:50-57 | the frame depends on the asset storage and the bind groups only at ids of ready entries, so no lookup is made for an entry that is not ready |
| `Schedule.CompletedCounts` | src/compute/node.rs:49-69 | a frame without an abort records 7 commands and 3 dispatches per ready entry and logs exactly one `dispatch done` per ready entry and nothing else |
| `Schedule.MissingAssetHalts` | src/compute/node.rs:53-56 | a ready entry with a missing asset keeps the commands of the entries before it, adds none of its own or of any later entry, and logs exactly one error, the missing-asset one, whether or not its bind group exists |
| `Schedule.MissingBindGroupHalts` | src/compute/node.rs:57-60 | a ready entry whose asset exists but whose bind group is missing halts the same way, with exactly one missing-bind-group error |
| `Schedule.ExampleSkipsNotReady` | src/compute/node.rs:49-69 | work list A ready, B not ready, C ready: A's block with density (8,8,8), then C's with (4,4,4), two completion messages, nothing for B |
| `Schedule.ExampleMissingAssetFirst` | src/compute/node.rs:53-56 | a ready entry with a missing asset ahead of two valid entries: no command at all and a single error |
| `Node.IsosurfaceComputeNode.Run` | src/compute/node.rs:20-73 | returns `Ok` on every path; opens and ends no pass when a pipeline is missing, otherwise ends exactly one pass holding `Trace`'s commands; the log gains exactly `Trace`'s events |
| `Node.IsosurfaceComputeNode.RecordDispatch` | src/compute/node.rs:61-68 | appends exactly the seven-command block for the entry's bind group and grid density to the pass |
| `Node.RunTwice` | src/compute/node.rs:14-22 | the node has no state: two runs on unchanged inputs end the same passes (at most one each) and log the same events |

## Left out

- The render-graph plumbing is not modelled: `RenderGraphContext`, the `RenderContext` that yields the command encoder, `ComputePassDescriptor` and the `RenderLabel` derive on `IsosurfaceComputeNodeLabel`. The pass is modelled only as an append-only command list.
- How the pipeline cache compiles shaders is not modelled. The cache is modelled as a map: `GetComputePipeline` and `Resolve` are plain map lookups, and a cached pipeline is either in the map (compiled) or absent. The guard's promise is stated on `Trace` and `Run`.
- What the three shaders compute is GPU-side work, and it is not modelled. Neither are buffer contents, barriers or indirect arguments.
- How `CalculateIsosurfaces`, `IsosurfaceAssetsStorage` and `IsosurfaceBindGroupsCollection` are filled, and when an entry becomes ready, are decided elsewhere in the repository. Those files are not part of this model; here they are read-only inputs.
- The dynamic offsets passed to `set_bind_group` are always empty, so they are not part of the recorded command.
- `info!` and `error!` are modelled as events in a log sequence; their formatting, levels and sinks are not modelled.
- `world.resource` panics when a resource is absent. The five resources the node reads are assumed present, since they are passed to `Run` as values, so that panic is not modelled.
- `NodeRunError` is the render graph's error type. Its variants are not modelled; `Err` stands for all of them, and `run` never produces it.
- A grid density of zero on some axis is not rejected. The source does not check for it either, and the dispatch is recorded as given.
