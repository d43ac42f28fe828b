/** Call sequences on the render manager that show what its state shadow is
    for: a repeated state change reaches the device once, and a framebuffer
    switch forgets which program was in use. */
module RenderScenarios {
  import opened GL
  import opened Render
  import opened Passes
  import opened Wrappers

  /** A bind repeated with the same handle issues nothing the second time,
      for each of the cached scalar wrappers. */
  method RepeatScalarBinds(rm: RenderManager, vbo: uint32, program: uint32, viewport: IVec4)
    modifies rm`vbo, rm`shaderProgram, rm`viewport, rm`calls
    ensures rm.calls == old(rm.calls) +
      (if old(rm.vbo) != vbo then [GlBindBuffer(GL_ARRAY_BUFFER, vbo)] else []) +
      (if old(rm.shaderProgram) != program then [GlUseProgram(program)] else []) +
      (if old(rm.viewport) != viewport then [GlViewport(viewport.x, viewport.y, viewport.z, viewport.w)] else [])
  {
    rm.BindVBO(vbo);
    ghost var afterVbo := rm.calls;
    rm.BindVBO(vbo);
    assert rm.calls == afterVbo;
    rm.UseShaderProgram(program);
    ghost var afterProgram := rm.calls;
    rm.UseShaderProgram(program);
    assert rm.calls == afterProgram;
    rm.SetViewport(viewport);
    ghost var afterViewport := rm.calls;
    rm.SetViewport(viewport);
    assert rm.calls == afterViewport;
  }

  /** A texture bound twice to the same unit and target reaches the device
      once, and the second call leaves the active unit alone. */
  method RepeatTextureBind(rm: RenderManager, unit: uint32, target: uint32, handle: uint32)
    requires rm.Valid()
    requires unit as nat < MAX_TEXTURE_UNITS
    modifies rm`texTargetMap, rm`activeTextureUnit, rm`calls, rm.boundTextures
    ensures rm.Valid()
    ensures rm.boundTextures[unit, TexSlot(target)] == handle
    ensures old(rm.boundTextures[unit, TexSlot(target)]) == handle ==> rm.calls == old(rm.calls)
    ensures old(rm.boundTextures[unit, TexSlot(target)]) != handle ==>
      rm.calls == old(rm.calls) +
        (if old(rm.activeTextureUnit) != unit then [GlActiveTexture(AddWrap32(GL_TEXTURE0, unit))] else []) +
        [GlBindTexture(target, handle)]
  {
    rm.BindTextureAt(unit, target, handle);
    ghost var once := rm.calls;
    rm.BindTextureAt(unit, target, handle);
    assert rm.calls == once;
  }

  /** Framebuffer A, then program P, then a different framebuffer B: the
      switch to B clears the program cache, so selecting P again issues
      glUseProgram again. */
  method FramebufferSwitchForgetsProgram(rm: RenderManager, a: uint32, b: uint32, program: uint32)
    requires rm.Valid()
    requires a != b && program != HANDLE_INVALID
    modifies rm.boundFrameBuffers, rm`shaderProgram, rm`calls
    ensures rm.shaderProgram == program
    ensures rm.boundFrameBuffers[READ_FRAMEBUFFER] == b && rm.boundFrameBuffers[DRAW_FRAMEBUFFER] == b
    ensures |rm.calls| >= 2 &&
      rm.calls[|rm.calls| - 2..] == [GlBindFramebuffer(GL_FRAMEBUFFER, b), GlUseProgram(program)]
  {
    rm.BindFrameBuffer(GL_FRAMEBUFFER, a);
    rm.UseShaderProgram(program);
    rm.BindFrameBuffer(GL_FRAMEBUFFER, b);
    assert rm.shaderProgram == HANDLE_INVALID;
    rm.UseShaderProgram(program);
  }

  /** Read-only and draw-only binds of the nested bindFrameBuffer never reach
      the device, whatever the handle. */
  method SplitTargetsIgnored(rm: RenderManager, handle: uint32)
    requires rm.Valid()
    modifies rm.boundFrameBuffers, rm`shaderProgram, rm`calls
    ensures rm.boundFrameBuffers[..] == old(rm.boundFrameBuffers[..])
    ensures rm.shaderProgram == old(rm.shaderProgram) && rm.calls == old(rm.calls)
  {
    rm.BindFrameBuffer(GL_READ_FRAMEBUFFER, handle);
    rm.BindFrameBuffer(GL_DRAW_FRAMEBUFFER, handle);
  }

  /** setOptimizer(NULL) drops the installed optimizer, and the next frame
      installs a SimpleOptimizer and rebuilds the operations with it. */
  method ClearedOptimizerReplaced(rm: RenderManager,
                                  optimize: (Optimizer, seq<FrameBufferStage>, seq<OperationId>) -> seq<OperationId>)
    requires rm.Valid()
    modifies rm, rm.boundAtomicBuffers, rm.boundTextures, rm.boundSamplers, rm.boundBuffers, rm.boundFrameBuffers
    modifies rm.stages, set st, o | st in rm.stages.elems && o in st.Parts() :: o
    ensures rm.optimizer == Some(SimpleOptimizer)
    ensures rm.operations == optimize(SimpleOptimizer, old(rm.stages.elems), old(rm.operations))
  {
    rm.SetOptimizer(None);
    rm.RenderFrame(optimize);
  }

  /** getFrameBufferStages hands out the manager's own vector: a stage
      appended through it is a stage of the manager. */
  method AddStageThroughGetter(rm: RenderManager, stage: FrameBufferStage)
    modifies rm.stages
    ensures rm.stages.elems == old(rm.stages.elems) + [stage]
  {
    var stages := rm.GetFrameBufferStages();
    stages.PushBack(stage);
  }
}
