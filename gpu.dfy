/**
 The GPU-side collaborators that the compute node talks to, reduced to what the
 node can observe: a compute pass is an append-only log of recorded commands, the
 command encoder collects the passes that have been ended, and the diagnostic
 logger collects `info`/`error` events.
 */
module Gpu {

  /** Rust's `u32`: the type of the workgroup counts handed to `dispatch_workgroups`. */
  newtype u32 = x: int | 0 <= x < 0x1_0000_0000

  /** Bevy's `UVec3`, as used for an asset's `grid_density`. */
  datatype UVec3 = UVec3(x: u32, y: u32, z: u32)

  /** Opaque handles of the executable pipelines and bind groups the pass refers to. */
  type ComputePipeline = nat
  type BindGroup = nat

  /** One command recorded into a compute pass. The dynamic offsets of
      `set_bind_group` are always empty at the call site and are not modelled. */
  datatype Command =
    | SetBindGroup(index: nat, group: BindGroup)
    | SetPipeline(pipeline: ComputePipeline)
    | Dispatch(x: u32, y: u32, z: u32)

  /** One diagnostic event written through `info!` or `error!`. */
  datatype LogEvent = Info(message: string) | Error(message: string)

  /** A compute pass that is being recorded: commands are only ever appended. */
  class ComputePass {
    var commands: seq<Command>

    constructor ()
      ensures commands == []
    {
      commands := [];
    }

    method SetBindGroup(index: nat, group: BindGroup)
      modifies this
      ensures commands == old(commands) + [Command.SetBindGroup(index, group)]
    {
      commands := commands + [Command.SetBindGroup(index, group)];
    }

    method SetPipeline(pipeline: ComputePipeline)
      modifies this
      ensures commands == old(commands) + [Command.SetPipeline(pipeline)]
    {
      commands := commands + [Command.SetPipeline(pipeline)];
    }

    method DispatchWorkgroups(x: u32, y: u32, z: u32)
      modifies this
      ensures commands == old(commands) + [Dispatch(x, y, z)]
    {
      commands := commands + [Dispatch(x, y, z)];
    }
  }

  /** The frame's command encoder: it hands out compute passes and keeps the
      commands of every pass once that pass is ended (dropped). */
  class CommandEncoder {
    var finished: seq<seq<Command>>

    constructor ()
      ensures finished == []
    {
      finished := [];
    }

    /** Opens a new, empty compute pass; the encoder itself is unchanged until the pass ends. */
    method BeginComputePass() returns (pass: ComputePass)
      ensures fresh(pass) && pass.commands == []
    {
      pass := new ComputePass();
    }

    /** Ends `pass`: whatever it recorded so far becomes part of the encoder's output. */
    method EndComputePass(pass: ComputePass)
      modifies this
      ensures finished == old(finished) + [pass.commands]
    {
      finished := finished + [pass.commands];
    }
  }

  /** The diagnostic log that `info!` and `error!` write to. */
  class Log {
    var events: seq<LogEvent>

    constructor ()
      ensures events == []
    {
      events := [];
    }

    method Info(message: string)
      modifies this
      ensures events == old(events) + [LogEvent.Info(message)]
    {
      events := events + [LogEvent.Info(message)];
    }

    method Error(message: string)
      modifies this
      ensures events == old(events) + [LogEvent.Error(message)]
    {
      events := events + [LogEvent.Error(message)];
    }
  }
}
