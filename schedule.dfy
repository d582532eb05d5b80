/**
 The per-frame scheduling rule of the isosurface compute node, as pure functions:
 which commands one frame records into its compute pass, in what order, which
 diagnostics it logs, and why it stops. The imperative node (module Node) is
 proved to record exactly this trace; the lemmas below state what the trace
 promises.
 */
module Schedule {
  import opened Gpu

  datatype Option<T> = None | Some(value: T)

  /** Handles of the render world: asset ids and pipeline-cache ids are opaque keys. */
  type AssetId = nat
  type CachedPipelineId = nat

  /** An entry of the `IsosurfaceAssetsStorage`: only its grid density is read here. */
  datatype IsosurfaceAsset = IsosurfaceAsset(gridDensity: UVec3)

  /** An entry of the `CalculateIsosurfaces` work list. */
  datatype Isosurface = Isosurface(assetId: AssetId, ready: bool)

  /** The `IsosurfaceComputePipelines` resource: three ids into the pipeline cache. */
  datatype IsosurfaceComputePipelines = IsosurfaceComputePipelines(
    findVertices: CachedPipelineId,
    connectVertices: CachedPipelineId,
    prepareIndirectBuffer: CachedPipelineId)

  /** The three executable pipelines, once the cache has compiled all of them. */
  datatype ResolvedPipelines = ResolvedPipelines(
    findVertices: ComputePipeline,
    connectVertices: ComputePipeline,
    prepareIndirectBuffer: ComputePipeline)

  const MISSING_ASSET := "missing isosurface asset"
  const MISSING_BIND_GROUP := "missing isosurface compute bind group"
  const DISPATCH_DONE := "dispatch done"

  /** Why a frame stopped recording. */
  datatype Stop = PipelinesNotReady | MissingAsset | MissingBindGroup | Completed

  /** What one frame produces: the commands of its compute pass, its diagnostics,
      and the reason it stopped (no pass is opened when the pipelines are not ready). */
  datatype Frame = Frame(commands: seq<Command>, log: seq<LogEvent>, stop: Stop)

  /** `PipelineCache::get_compute_pipeline`: a cached pipeline that has not been
      compiled yet is simply absent from the cache. */
  function GetComputePipeline(cache: map<CachedPipelineId, ComputePipeline>, id: CachedPipelineId): Option<ComputePipeline>
  {
    if id in cache then Some(cache[id]) else None
  }

  /** All three pipelines must resolve for any work to be recorded. */
  function Resolve(cache: map<CachedPipelineId, ComputePipeline>, ids: IsosurfaceComputePipelines): Option<ResolvedPipelines>
  {
    match (GetComputePipeline(cache, ids.findVertices),
           GetComputePipeline(cache, ids.connectVertices),
           GetComputePipeline(cache, ids.prepareIndirectBuffer))
    case (Some(find), Some(connect), Some(prepare)) => Some(ResolvedPipelines(find, connect, prepare))
    case _ => None
  }

  /** The seven commands recorded for one ready isosurface. */
  function DispatchBlock(ps: ResolvedPipelines, group: BindGroup, density: UVec3): seq<Command>
  {
    [ Command.SetBindGroup(0, group),
      Command.SetPipeline(ps.findVertices),
      Dispatch(density.x, density.y, density.z),
      Command.SetPipeline(ps.connectVertices),
      Dispatch(density.x, density.y, density.z),
      Command.SetPipeline(ps.prepareIndirectBuffer),
      Dispatch(1, 1, 1) ]
  }

  /** Every ready entry of `work` finds both its asset and its bind group. */
  ghost predicate AllResolvable(work: seq<Isosurface>, assets: map<AssetId, IsosurfaceAsset>, binds: map<AssetId, BindGroup>)
  {
    forall k :: 0 <= k < |work| && work[k].ready ==> work[k].assetId in assets && work[k].assetId in binds
  }

  /** Runs the rest of the frame after `prefix` when `prefix` did not stop early. */
  function Then(prefix: Frame, rest: Frame): Frame
  {
    Frame(prefix.commands + rest.commands, prefix.log + rest.log, rest.stop)
  }

  lemma ThenAssociative(a: Frame, b: Frame, c: Frame)
    ensures Then(Then(a, b), c) == Then(a, Then(b, c))
  {
  }

  /** The loop over the work list, once the pipelines are resolved and the pass is open. */
  function TraceFrom(ps: ResolvedPipelines, work: seq<Isosurface>,
                     assets: map<AssetId, IsosurfaceAsset>, binds: map<AssetId, BindGroup>): (r: Frame)
    ensures r.stop != PipelinesNotReady
    ensures r.stop == Completed <==> AllResolvable(work, assets, binds)
    decreases |work|
  {
    if work == [] then Frame([], [], Completed)
    else
      var iso := work[0];
      var rest := TraceFrom(ps, work[1..], assets, binds);
      assert AllResolvable(work, assets, binds) <==>
             (iso.ready ==> iso.assetId in assets && iso.assetId in binds) && AllResolvable(work[1..], assets, binds)
      by {
        if AllResolvable(work[1..], assets, binds) && (iso.ready ==> iso.assetId in assets && iso.assetId in binds) {
          forall k | 0 <= k < |work| && work[k].ready
            ensures work[k].assetId in assets && work[k].assetId in binds
          {
            if k > 0 { assert work[k] == work[1..][k - 1]; }
          }
        }
      }
      if !iso.ready then rest
      else if iso.assetId !in assets then Frame([], [Error(MISSING_ASSET)], MissingAsset)
      else if iso.assetId !in binds then Frame([], [Error(MISSING_BIND_GROUP)], MissingBindGroup)
      else
        Then(Frame(DispatchBlock(ps, binds[iso.assetId], assets[iso.assetId].gridDensity), [Info(DISPATCH_DONE)], Completed),
             rest)
  }

  /** One invocation of the node: resolve the pipelines, then run the work list. */
  function Trace(cache: map<CachedPipelineId, ComputePipeline>, ids: IsosurfaceComputePipelines, work: seq<Isosurface>,
                 assets: map<AssetId, IsosurfaceAsset>, binds: map<AssetId, BindGroup>): (r: Frame)
    ensures r.stop == PipelinesNotReady <==>
            ids.findVertices !in cache || ids.connectVertices !in cache || ids.prepareIndirectBuffer !in cache
    ensures r.stop == PipelinesNotReady ==> r.commands == [] && r.log == []
    ensures r.stop == Completed <==> Resolve(cache, ids).Some? && AllResolvable(work, assets, binds)
  {
    match Resolve(cache, ids)
    case None => Frame([], [], PipelinesNotReady)
    case Some(ps) => TraceFrom(ps, work, assets, binds)
  }

  // ----- counting ---------------------------------------------------------

  /** The number of `Dispatch` commands in a command sequence. */
  function DispatchCount(s: seq<Command>): nat
  {
    if s == [] then 0 else DispatchCount(s[..|s| - 1]) + (if s[|s| - 1].Dispatch? then 1 else 0)
  }

  /** The number of ready entries in a work list. */
  function ReadyCount(work: seq<Isosurface>): nat
  {
    if work == [] then 0 else (if work[0].ready then 1 else 0) + ReadyCount(work[1..])
  }

  /** `n` completion diagnostics in a row. */
  function Dones(n: nat): seq<LogEvent>
  {
    seq(n, _ => Info(DISPATCH_DONE))
  }

  lemma {:induction false} DispatchCountAppend(a: seq<Command>, b: seq<Command>)
    ensures DispatchCount(a + b) == DispatchCount(a) + DispatchCount(b)
    decreases |b|
  {
    if b == [] {
      assert a + b == a;
    } else {
      assert (a + b)[..|a + b| - 1] == a + b[..|b| - 1];
      DispatchCountAppend(a, b[..|b| - 1]);
    }
  }

  // ----- properties of a frame --------------------------------------------

  /** A ready isosurface whose asset and bind group both exist records exactly
      the seven-command block, with both density-sized dispatches using the
      asset's grid density, and logs one completion message. */
  lemma ReadyEntryBlock(ps: ResolvedPipelines, iso: Isosurface,
                        assets: map<AssetId, IsosurfaceAsset>, binds: map<AssetId, BindGroup>)
    requires iso.ready && iso.assetId in assets && iso.assetId in binds
    ensures var d := assets[iso.assetId].gridDensity;
            TraceFrom(ps, [iso], assets, binds) == Frame(
              [ Command.SetBindGroup(0, binds[iso.assetId]),
                Command.SetPipeline(ps.findVertices),
                Dispatch(d.x, d.y, d.z),
                Command.SetPipeline(ps.connectVertices),
                Dispatch(d.x, d.y, d.z),
                Command.SetPipeline(ps.prepareIndirectBuffer),
                Dispatch(1, 1, 1) ],
              [Info(DISPATCH_DONE)],
              Completed)
  {
  }

  /** Running two work lists back to back: the second list only contributes when
      the first one ran to completion, and then its commands and diagnostics come
      after the first one's. */
  lemma {:induction false} TraceAppend(ps: ResolvedPipelines, pre: seq<Isosurface>, post: seq<Isosurface>,
                                       assets: map<AssetId, IsosurfaceAsset>, binds: map<AssetId, BindGroup>)
    ensures TraceFrom(ps, pre + post, assets, binds) ==
            if TraceFrom(ps, pre, assets, binds).stop == Completed
            then Then(TraceFrom(ps, pre, assets, binds), TraceFrom(ps, post, assets, binds))
            else TraceFrom(ps, pre, assets, binds)
    decreases |pre|
  {
    if pre == [] {
      assert pre + post == post;
      var p := TraceFrom(ps, post, assets, binds);
      assert [] + p.commands == p.commands && [] + p.log == p.log;
    } else {
      assert (pre + post)[0] == pre[0];
      assert (pre + post)[1..] == pre[1..] + post;
      TraceAppend(ps, pre[1..], post, assets, binds);
      var iso := pre[0];
      if iso.ready && iso.assetId in assets && iso.assetId in binds {
        var block := DispatchBlock(ps, binds[iso.assetId], assets[iso.assetId].gridDensity);
        var r1 := TraceFrom(ps, pre[1..], assets, binds);
        var r2 := TraceFrom(ps, post, assets, binds);
        assert block + (r1.commands + r2.commands) == (block + r1.commands) + r2.commands;
        assert [Info(DISPATCH_DONE)] + (r1.log + r2.log) == ([Info(DISPATCH_DONE)] + r1.log) + r2.log;
      }
    }
  }

  /** An entry that is not ready contributes nothing: dropping it from anywhere in
      the work list leaves the frame unchanged. */
  lemma {:induction false} NotReadySkipped(ps: ResolvedPipelines, pre: seq<Isosurface>, iso: Isosurface, post: seq<Isosurface>,
                                           assets: map<AssetId, IsosurfaceAsset>, binds: map<AssetId, BindGroup>)
    requires !iso.ready
    ensures TraceFrom(ps, pre + [iso] + post, assets, binds) == TraceFrom(ps, pre + post, assets, binds)
  {
    assert pre + [iso] + post == pre + ([iso] + post);
    assert ([iso] + post)[0] == iso && ([iso] + post)[1..] == post;
    TraceAppend(ps, pre, [iso] + post, assets, binds);
    TraceAppend(ps, pre, post, assets, binds);
  }

  /** A frame that runs to completion records one seven-command block, with three
      dispatches, and one completion message per ready entry. */
  lemma {:induction false} CompletedCounts(ps: ResolvedPipelines, work: seq<Isosurface>,
                                           assets: map<AssetId, IsosurfaceAsset>, binds: map<AssetId, BindGroup>)
    requires AllResolvable(work, assets, binds)
    ensures var r := TraceFrom(ps, work, assets, binds);
            |r.commands| == 7 * ReadyCount(work) &&
            DispatchCount(r.commands) == 3 * ReadyCount(work) &&
            r.log == Dones(ReadyCount(work))
    decreases |work|
  {
    if work != [] {
      var iso := work[0];
      assert AllResolvable(work[1..], assets, binds) by {
        forall k | 0 <= k < |work[1..]| && work[1..][k].ready
          ensures work[1..][k].assetId in assets && work[1..][k].assetId in binds
        {
          assert work[1..][k] == work[k + 1];
        }
      }
      CompletedCounts(ps, work[1..], assets, binds);
      var rest := TraceFrom(ps, work[1..], assets, binds);
      if iso.ready {
        var block := DispatchBlock(ps, binds[iso.assetId], assets[iso.assetId].gridDensity);
        assert DispatchCount(block) == 3 by {
          assert block[..1][..0] == [];
          assert DispatchCount(block[..1]) == 0;
          assert block[..2][..1] == block[..1];
          assert DispatchCount(block[..2]) == 0;
          assert block[..3][..2] == block[..2];
          assert DispatchCount(block[..3]) == 1;
          assert block[..4][..3] == block[..3];
          assert DispatchCount(block[..4]) == 1;
          assert block[..5][..4] == block[..4];
          assert DispatchCount(block[..5]) == 2;
          assert block[..6][..5] == block[..5];
          assert DispatchCount(block[..6]) == 2;
          assert block[..6] == block[..|block| - 1];
        }
        DispatchCountAppend(block, rest.commands);
        assert [Info(DISPATCH_DONE)] + Dones(ReadyCount(work[1..])) == Dones(ReadyCount(work));
      }
    }
  }

  /** A ready entry whose asset is missing ends the frame with exactly one error,
      after keeping everything recorded for the entries before it; the entries
      after it are never looked at. The asset is checked before the bind group,
      so this holds whether or not the bind group exists. */
  lemma {:induction false} MissingAssetHalts(ps: ResolvedPipelines, pre: seq<Isosurface>, iso: Isosurface, post: seq<Isosurface>,
                                             assets: map<AssetId, IsosurfaceAsset>, binds: map<AssetId, BindGroup>)
    requires AllResolvable(pre, assets, binds)
    requires iso.ready && iso.assetId !in assets
    ensures var r := TraceFrom(ps, pre + [iso] + post, assets, binds);
            r.commands == TraceFrom(ps, pre, assets, binds).commands &&
            r.log == Dones(ReadyCount(pre)) + [Error(MISSING_ASSET)] &&
            r.stop == MissingAsset
  {
    assert pre + [iso] + post == pre + ([iso] + post);
    assert ([iso] + post)[0] == iso;
    TraceAppend(ps, pre, [iso] + post, assets, binds);
    CompletedCounts(ps, pre, assets, binds);
    assert TraceFrom(ps, pre, assets, binds).commands + [] == TraceFrom(ps, pre, assets, binds).commands;
  }

  /** A ready entry whose asset exists but whose bind group is missing halts the
      frame in the same way, with the bind-group error. */
  lemma {:induction false} MissingBindGroupHalts(ps: ResolvedPipelines, pre: seq<Isosurface>, iso: Isosurface, post: seq<Isosurface>,
                                                 assets: map<AssetId, IsosurfaceAsset>, binds: map<AssetId, BindGroup>)
    requires AllResolvable(pre, assets, binds)
    requires iso.ready && iso.assetId in assets && iso.assetId !in binds
    ensures var r := TraceFrom(ps, pre + [iso] + post, assets, binds);
            r.commands == TraceFrom(ps, pre, assets, binds).commands &&
            r.log == Dones(ReadyCount(pre)) + [Error(MISSING_BIND_GROUP)] &&
            r.stop == MissingBindGroup
  {
    assert pre + [iso] + post == pre + ([iso] + post);
    assert ([iso] + post)[0] == iso;
    TraceAppend(ps, pre, [iso] + post, assets, binds);
    CompletedCounts(ps, pre, assets, binds);
    assert TraceFrom(ps, pre, assets, binds).commands + [] == TraceFrom(ps, pre, assets, binds).commands;
  }

  /** The ids the frame may look up: those of ready entries. */
  function ReadyIds(work: seq<Isosurface>): set<AssetId>
  {
    set k | 0 <= k < |work| && work[k].ready :: work[k].assetId
  }

  /** Two maps hold the same entries for every key in `keys`. */
  ghost predicate AgreeOn<V>(keys: set<AssetId>, m: map<AssetId, V>, m': map<AssetId, V>)
  {
    forall id :: id in keys ==> (id in m <==> id in m') && (id in m ==> m[id] == m'[id])
  }

  /** No asset or bind group is looked up for an entry that is not ready: the
      frame depends on the two maps only at the ids of ready entries. */
  lemma {:induction false} LookupsOnlyForReady(ps: ResolvedPipelines, work: seq<Isosurface>,
                                               assets: map<AssetId, IsosurfaceAsset>, assets': map<AssetId, IsosurfaceAsset>,
                                               binds: map<AssetId, BindGroup>, binds': map<AssetId, BindGroup>)
    requires AgreeOn(ReadyIds(work), assets, assets') && AgreeOn(ReadyIds(work), binds, binds')
    ensures TraceFrom(ps, work, assets, binds) == TraceFrom(ps, work, assets', binds')
    decreases |work|
  {
    if work != [] {
      assert ReadyIds(work[1..]) <= ReadyIds(work) by {
        forall id | id in ReadyIds(work[1..]) ensures id in ReadyIds(work) {
          var k :| 0 <= k < |work[1..]| && work[1..][k].ready && work[1..][k].assetId == id;
          assert work[k + 1] == work[1..][k];
        }
      }
      LookupsOnlyForReady(ps, work[1..], assets, assets', binds, binds');
      if work[0].ready {
        assert work[0].assetId in ReadyIds(work);
      }
    }
  }

  // ----- worked examples ---------------------------------------------------

  /** Entries A (ready), B (not ready) and C (ready), every resource present:
      A's block, then C's block; B records nothing. */
  lemma ExampleSkipsNotReady()
    ensures var ps := ResolvedPipelines(100, 101, 102);
            var assets := map[1 := IsosurfaceAsset(UVec3(8, 8, 8)), 2 := IsosurfaceAsset(UVec3(2, 2, 2)),
                              3 := IsosurfaceAsset(UVec3(4, 4, 4))];
            var binds := map[1 := 11, 2 := 12, 3 := 13];
            var work := [Isosurface(1, true), Isosurface(2, false), Isosurface(3, true)];
            TraceFrom(ps, work, assets, binds) == Frame(
              [ Command.SetBindGroup(0, 11), Command.SetPipeline(100), Dispatch(8, 8, 8),
                Command.SetPipeline(101), Dispatch(8, 8, 8), Command.SetPipeline(102), Dispatch(1, 1, 1),
                Command.SetBindGroup(0, 13), Command.SetPipeline(100), Dispatch(4, 4, 4),
                Command.SetPipeline(101), Dispatch(4, 4, 4), Command.SetPipeline(102), Dispatch(1, 1, 1) ],
              [Info(DISPATCH_DONE), Info(DISPATCH_DONE)],
              Completed)
  {
  }

  /** A ready entry whose asset is missing comes first: the frame records nothing
      for the valid entries after it and logs a single error. */
  lemma ExampleMissingAssetFirst()
    ensures var ps := ResolvedPipelines(100, 101, 102);
            var assets := map[1 := IsosurfaceAsset(UVec3(8, 8, 8)), 3 := IsosurfaceAsset(UVec3(4, 4, 4))];
            var binds := map[1 := 11, 3 := 13];
            var work := [Isosurface(2, true), Isosurface(1, true), Isosurface(3, true)];
            TraceFrom(ps, work, assets, binds) == Frame([], [Error(MISSING_ASSET)], MissingAsset)
  {
  }
}
