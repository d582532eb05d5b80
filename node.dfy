/**
 The render-graph node that records the isosurface compute work of one frame.
 The world's resources it reads (pipeline cache, pipeline ids, asset storage,
 work list, bind groups) are passed in as values; the command encoder and the
 diagnostic log are the objects it changes.
 */
module Node {
  import opened Gpu
  import opened Schedule

  /** The node's `Result<(), NodeRunError>`; the error variants belong to the
      render graph and are never produced here. */
  datatype NodeRunResult = Ok | Err

  /** The node is a unit struct: it has no state of its own. */
  class IsosurfaceComputeNode {

    constructor ()
    {
    }

    /** Records this frame's compute work into a single compute pass of `encoder`.
        When the pipelines are not all compiled no pass is opened; otherwise one
        pass is opened and ended, on every exit, holding exactly the commands of
        `Trace`, and the log gains exactly `Trace`'s diagnostics. */
    method Run(cache: map<CachedPipelineId, ComputePipeline>, pipelines: IsosurfaceComputePipelines,
               isosurfaces: seq<Isosurface>, assets: map<AssetId, IsosurfaceAsset>,
               bindGroups: map<AssetId, BindGroup>, encoder: CommandEncoder, log: Log)
      returns (result: NodeRunResult)
      modifies encoder, log
      ensures result == Ok
      ensures var frame := Trace(cache, pipelines, isosurfaces, assets, bindGroups);
              encoder.finished == old(encoder.finished) + (if frame.stop == PipelinesNotReady then [] else [frame.commands]) &&
              log.events == old(log.events) + frame.log
    {
      result := Ok;
      var find := GetComputePipeline(cache, pipelines.findVertices);
      var connect := GetComputePipeline(cache, pipelines.connectVertices);
      var prepare := GetComputePipeline(cache, pipelines.prepareIndirectBuffer);
      if find.None? || connect.None? || prepare.None? {
        return;
      }
      ghost var ps := ResolvedPipelines(find.value, connect.value, prepare.value);
      assert Resolve(cache, pipelines) == Some(ps);
      var pass := encoder.BeginComputePass();

      ghost var whole := TraceFrom(ps, isosurfaces, assets, bindGroups);
      ghost var logged: seq<LogEvent> := [];
      var i := 0;
      while i < |isosurfaces|
        invariant 0 <= i <= |isosurfaces|
        invariant encoder.finished == old(encoder.finished)
        invariant log.events == old(log.events) + logged
        invariant whole == Then(Frame(pass.commands, logged, Completed), TraceFrom(ps, isosurfaces[i..], assets, bindGroups))
      {
        var isosurface := isosurfaces[i];
        ghost var done := Frame(pass.commands, logged, Completed);
        ghost var rest := TraceFrom(ps, isosurfaces[i + 1..], assets, bindGroups);
        assert isosurfaces[i..][0] == isosurface && isosurfaces[i..][1..] == isosurfaces[i + 1..];
        if !isosurface.ready {
          i := i + 1;
          continue;
        }
        if isosurface.assetId !in assets {
          assert done.commands + [] == done.commands;
          log.Error(MISSING_ASSET);
          encoder.EndComputePass(pass);
          return;
        }
        var asset := assets[isosurface.assetId];
        if isosurface.assetId !in bindGroups {
          assert done.commands + [] == done.commands;
          log.Error(MISSING_BIND_GROUP);
          encoder.EndComputePass(pass);
          return;
        }
        var bindGroup := bindGroups[isosurface.assetId];
        var density := asset.gridDensity;
        ghost var entry := Frame(DispatchBlock(ps, bindGroup, density), [Info(DISPATCH_DONE)], Completed);
        assert TraceFrom(ps, isosurfaces[i..], assets, bindGroups) == Then(entry, rest);
        RecordDispatch(pass, find.value, connect.value, prepare.value, bindGroup, density);
        log.Info(DISPATCH_DONE);
        logged := logged + [Info(DISPATCH_DONE)];
        assert Frame(pass.commands, logged, Completed) == Then(done, entry);
        ThenAssociative(done, entry, rest);
        i := i + 1;
      }
      assert isosurfaces[i..] == [];
      assert pass.commands + [] == pass.commands && logged + [] == logged;
      encoder.EndComputePass(pass);
    }

    /** The seven commands recorded for one ready isosurface: bind its group at
        slot 0, then the two grid-sized stages and the single-workgroup stage. */
    method RecordDispatch(pass: ComputePass, find: ComputePipeline, connect: ComputePipeline,
                          prepare: ComputePipeline, bindGroup: BindGroup, density: UVec3)
      modifies pass
      ensures pass.commands == old(pass.commands) + DispatchBlock(ResolvedPipelines(find, connect, prepare), bindGroup, density)
    {
      pass.SetBindGroup(0, bindGroup);
      pass.SetPipeline(find);
      pass.DispatchWorkgroups(density.x, density.y, density.z);
      pass.SetPipeline(connect);
      pass.DispatchWorkgroups(density.x, density.y, density.z);
      pass.SetPipeline(prepare);
      pass.DispatchWorkgroups(1, 1, 1);
    }
  }

  /** Running the node twice on unchanged inputs records the same passes and the
      same diagnostics both times: the node keeps no state between frames. */
  method RunTwice(node: IsosurfaceComputeNode, cache: map<CachedPipelineId, ComputePipeline>,
                  pipelines: IsosurfaceComputePipelines, isosurfaces: seq<Isosurface>,
                  assets: map<AssetId, IsosurfaceAsset>, bindGroups: map<AssetId, BindGroup>)
    returns (firstPasses: seq<seq<Command>>, secondPasses: seq<seq<Command>>,
             firstLog: seq<LogEvent>, secondLog: seq<LogEvent>)
    ensures firstPasses == secondPasses && firstLog == secondLog
    ensures |firstPasses| <= 1
  {
    var encoder := new CommandEncoder();
    var log := new Log();
    var _ := node.Run(cache, pipelines, isosurfaces, assets, bindGroups, encoder, log);
    firstPasses, firstLog := encoder.finished, log.events;
    var _ := node.Run(cache, pipelines, isosurfaces, assets, bindGroups, encoder, log);
    secondPasses := encoder.finished[|firstPasses|..];
    secondLog := log.events[|firstLog|..];
  }
}
