/** graphics::Device (src/graphics/device.cpp): the per-frame sync objects,
    what goes onto the graphics queue with which fence, the classification
    of present results, command-buffer allocation and the fence wait loop.
    Vulkan objects are handles the device numbers itself; what the driver
    answers to present and to fence waits is an input. */
module Devices {
  import opened Wrappers
  import opened Vk
  import opened CommandBuffers

  /** The number of frames in flight the sync objects are made for. */
  const FrameCount: nat := 2

  datatype Fence = Fence(handle: nat, signaled: bool)

  /** What a graphics-queue submit carries: the command buffers of the
      vk::SubmitInfo and the fence to signal, if any. */
  datatype Submission = Submission(commandBuffers: seq<nat>, fence: Option<nat>)

  /** The present classification of Device::present, on what presentKHR did. */
  function PresentResult(present: Outcome): (r: Result<()>)
    ensures r.Ok? <==> present.Returned? && present.result != ErrorOutOfDateKHR && present.result != SuboptimalKHR
    ensures r.Err? && present.Returned? ==> r.error == "Present out of dat"
    ensures present == Threw(ErrorOutOfDateKHR) ==> r == Err("Present out of dat")
    ensures present.Threw? && present.code != ErrorOutOfDateKHR ==> r == Err("Unexpected present error")
  {
    match present
    case Returned(result) =>
      if result == ErrorOutOfDateKHR || result == SuboptimalKHR then Err("Present out of dat") else Ok(())
    case Threw(code) =>
      if code == ErrorOutOfDateKHR then Err("Present out of dat") else Err("Unexpected present error")
  }

  /** An out-of-date swapchain is reported the same way whether presentKHR
      returned the code or threw it. */
  lemma PresentOutOfDateEitherWay()
    ensures PresentResult(Returned(ErrorOutOfDateKHR)) == PresentResult(Threw(ErrorOutOfDateKHR))
  {
  }

  predicate Distinct(s: seq<nat>) {
    forall i, j :: 0 <= i < j < |s| ==> s[i] != s[j]
  }

  class Device {
    var presentSemaphores: seq<nat>
    var renderSemaphores: seq<nat>
    var fences: seq<Fence>
    /** Everything submitted to the graphics queue, in order. */
    var graphicsQueue: seq<Submission>
    /** How often the host waited for the graphics queue to go idle. */
    var queueWaits: nat
    /** The next handle the device hands out. */
    var nextHandle: nat

    constructor()
      ensures presentSemaphores == [] && renderSemaphores == [] && fences == []
      ensures graphicsQueue == [] && queueWaits == 0
    {
      presentSemaphores := [];
      renderSemaphores := [];
      fences := [];
      graphicsQueue := [];
      queueWaits := 0;
      nextHandle := 0;
    }

    function FenceHandles(): seq<nat>
      reads this
    {
      seq(|fences|, i requires 0 <= i < |fences| reads this => fences[i].handle)
    }

    /** create_sync_objects: the three vectors are cleared and refilled with
        two present semaphores, two render semaphores and two fences created
        signaled, all of them new objects. */
    method CreateSyncObjects()
      modifies this
      ensures |presentSemaphores| == FrameCount && |renderSemaphores| == FrameCount && |fences| == FrameCount
      ensures forall i :: 0 <= i < |fences| ==> fences[i].signaled
      ensures Distinct(presentSemaphores + renderSemaphores + FenceHandles())
      ensures forall h :: h in presentSemaphores + renderSemaphores + FenceHandles() ==> old(nextHandle) <= h < nextHandle
      ensures graphicsQueue == old(graphicsQueue) && queueWaits == old(queueWaits)
    {
      presentSemaphores := [];
      renderSemaphores := [];
      fences := [];
      for i := 0 to FrameCount
        invariant |presentSemaphores| == i && |renderSemaphores| == i && |fences| == i
        invariant nextHandle == old(nextHandle) + 3 * i
        invariant forall k :: 0 <= k < i ==>
          presentSemaphores[k] == old(nextHandle) + 3 * k &&
          renderSemaphores[k] == old(nextHandle) + 3 * k + 1 &&
          fences[k] == Fence(old(nextHandle) + 3 * k + 2, true)
        invariant graphicsQueue == old(graphicsQueue) && queueWaits == old(queueWaits)
      {
        presentSemaphores := presentSemaphores + [nextHandle];
        renderSemaphores := renderSemaphores + [nextHandle + 1];
        fences := fences + [Fence(nextHandle + 2, true)];
        nextHandle := nextHandle + 3;
      }
      var all := presentSemaphores + renderSemaphores + FenceHandles();
      assert all == [old(nextHandle), old(nextHandle) + 3, old(nextHandle) + 1, old(nextHandle) + 4,
                     old(nextHandle) + 2, old(nextHandle) + 5];
    }

    /** submit_graphics: fences[frame_index] is attached exactly when
        wait_for_fence is set, so only then must the index be in range. */
    method SubmitGraphics(commandBuffers: seq<nat>, frameIndex: nat, waitForFence: bool)
      requires waitForFence ==> frameIndex < |fences|
      modifies this
      ensures graphicsQueue == old(graphicsQueue) +
        [Submission(commandBuffers, if waitForFence then Some(old(fences)[frameIndex].handle) else None)]
      ensures presentSemaphores == old(presentSemaphores) && renderSemaphores == old(renderSemaphores)
      ensures fences == old(fences) && queueWaits == old(queueWaits) && nextHandle == old(nextHandle)
    {
      if waitForFence {
        graphicsQueue := graphicsQueue + [Submission(commandBuffers, Some(fences[frameIndex].handle))];
      } else {
        graphicsQueue := graphicsQueue + [Submission(commandBuffers, None)];
      }
    }

    /** wait_graphics_queue. */
    method WaitGraphicsQueue()
      modifies this
      ensures queueWaits == old(queueWaits) + 1
      ensures presentSemaphores == old(presentSemaphores) && renderSemaphores == old(renderSemaphores)
      ensures fences == old(fences) && graphicsQueue == old(graphicsQueue) && nextHandle == old(nextHandle)
    {
      queueWaits := queueWaits + 1;
    }

    /** submit: the command buffer goes onto the graphics queue with no
        fence (the default arguments of submit_graphics), and the host waits
        for the queue exactly when the buffer was begun as one-time. */
    method Submit(commandBuffer: CommandBuffer)
      modifies this
      ensures graphicsQueue == old(graphicsQueue) + [Submission([commandBuffer.handle], None)]
      ensures queueWaits == old(queueWaits) + (if commandBuffer.cmdType == OneTime then 1 else 0)
      ensures presentSemaphores == old(presentSemaphores) && renderSemaphores == old(renderSemaphores)
      ensures fences == old(fences) && nextHandle == old(nextHandle)
    {
      SubmitGraphics([commandBuffer.handle], 0, false);
      if commandBuffer.cmdType == OneTime {
        WaitGraphicsQueue();
      }
    }

    /** reset_fence. */
    method ResetFence(frameIndex: nat)
      requires frameIndex < |fences|
      modifies this
      ensures fences == old(fences)[frameIndex := Fence(old(fences)[frameIndex].handle, false)]
      ensures presentSemaphores == old(presentSemaphores) && renderSemaphores == old(renderSemaphores)
      ensures graphicsQueue == old(graphicsQueue) && queueWaits == old(queueWaits) && nextHandle == old(nextHandle)
    {
      fences := fences[frameIndex := Fence(fences[frameIndex].handle, false)];
    }

    /** allocate_command_buffers: asserts count > 0 and wraps each of the
        `count` primary buffers the pool hands out, in order. */
    method AllocateCommandBuffers(count: nat) returns (buffers: seq<CommandBuffer>)
      requires count > 0
      modifies this
      ensures |buffers| == count
      ensures forall i :: 0 <= i < count ==>
        fresh(buffers[i]) && buffers[i].cmdType == Multiple && !buffers[i].recording &&
        buffers[i].handle == old(nextHandle) + i
      ensures nextHandle == old(nextHandle) + count
      ensures presentSemaphores == old(presentSemaphores) && renderSemaphores == old(renderSemaphores)
      ensures fences == old(fences) && graphicsQueue == old(graphicsQueue) && queueWaits == old(queueWaits)
    {
      buffers := [];
      var start := nextHandle;
      for i := 0 to count
        invariant |buffers| == i && nextHandle == start + i
        invariant forall k :: 0 <= k < i ==>
          fresh(buffers[k]) && buffers[k].cmdType == Multiple && !buffers[k].recording &&
          buffers[k].handle == start + k
        invariant presentSemaphores == old(presentSemaphores) && renderSemaphores == old(renderSemaphores)
        invariant fences == old(fences) && graphicsQueue == old(graphicsQueue) && queueWaits == old(queueWaits)
      {
        var buffer := new CommandBuffer(nextHandle);
        buffers := buffers + [buffer];
        nextHandle := nextHandle + 1;
      }
    }

    /** allocate_command_buffer: the first of a one-element allocation. */
    method AllocateCommandBuffer() returns (buffer: CommandBuffer)
      modifies this
      ensures fresh(buffer) && buffer.cmdType == Multiple && !buffer.recording
      ensures buffer.handle == old(nextHandle) && nextHandle == old(nextHandle) + 1
    {
      var buffers := AllocateCommandBuffers(1);
      buffer := buffers[0];
    }

    /** wait_idle: wait on fences[frame_index] again and again while the
        wait times out. `answers` are the driver's successive results; the
        result is how many waits were made. */
    method WaitIdle(frameIndex: nat, answers: seq<VkResult>) returns (waits: nat)
      requires frameIndex < |fences|
      requires exists k :: 0 <= k < |answers| && answers[k] != Timeout
      ensures 1 <= waits <= |answers| && answers[waits - 1] != Timeout
      ensures forall k :: 0 <= k < waits - 1 ==> answers[k] == Timeout
    {
      waits := 0;
      while answers[waits] == Timeout
        invariant waits < |answers|
        invariant forall k :: 0 <= k < waits ==> answers[k] == Timeout
        invariant exists k :: waits <= k < |answers| && answers[k] != Timeout
        decreases |answers| - waits
      {
        waits := waits + 1;
      }
      waits := waits + 1;
    }
  }
}
