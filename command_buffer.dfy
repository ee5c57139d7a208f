/** graphics::CommandBuffer (src/graphics/command_buffer.cpp): the wrapper's
    type tag and the recording state of the command buffer it owns. */
module CommandBuffers {

  datatype CommandBufferType = Multiple | OneTime

  class CommandBuffer {
    /** The vk::raii::CommandBuffer the wrapper owns, as a handle. */
    const handle: nat
    var cmdType: CommandBufferType
    var recording: bool

    /** A wrapped command buffer starts as a reusable (Multiple) one. */
    constructor(handle: nat)
      ensures this.handle == handle && cmdType == Multiple && !recording
    {
      this.handle := handle;
      cmdType := Multiple;
      recording := false;
    }

    /** begin: recording with no usage flags; the type is not touched. */
    method Begin()
      modifies this
      ensures cmdType == old(cmdType) && recording
    {
      recording := true;
    }

    /** begin_onetime: the type becomes OneTime and recording starts with
        the one-time-submit flag. */
    method BeginOneTime()
      modifies this
      ensures cmdType == OneTime && recording
    {
      cmdType := OneTime;
      recording := true;
    }

    /** end: recording stops; the type is not touched. */
    method End()
      modifies this
      ensures cmdType == old(cmdType) && !recording
    {
      recording := false;
    }
  }

  /** Once one-time, always one-time: of the operations only BeginOneTime
      writes the type, and it writes OneTime. */
  method BeginEndCycle(cb: CommandBuffer, oneTime: bool)
    modifies cb
    ensures old(cb.cmdType) == OneTime ==> cb.cmdType == OneTime
    ensures cb.cmdType == (if oneTime then OneTime else old(cb.cmdType))
    ensures !cb.recording
  {
    if oneTime {
      cb.BeginOneTime();
    } else {
      cb.Begin();
    }
    cb.End();
  }
}
