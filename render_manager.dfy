/** The render manager: the shadow of device state that lets every GL
    wrapper skip a call whose value is already bound, the list of framebuffer
    stages, and the flattened operation list executed once per frame. */
module Render {
  import opened GL
  import opened Wrappers
  import opened Sequences
  import opened Containers
  import opened Passes

  // TextureTargets: compact indices of the texture-binding targets.
  const TEXTURE_1D: nat := 0
  const TEXTURE_2D: nat := 1
  const TEXTURE_3D: nat := 2
  const TEXTURE_1D_ARRAY: nat := 3
  const TEXTURE_2D_ARRAY: nat := 4
  const TEXTURE_RECTANGLE: nat := 5
  const TEXTURE_CUBE_MAP: nat := 6
  const TEXTURE_CUBE_MAP_ARRAY: nat := 7
  const TEXTURE_BUFFER: nat := 8
  const TEXTURE_2D_MULTISAMPLE: nat := 9
  const TEXTURE_2D_MULTISAMPLE_ARRAY: nat := 10
  const NUM_TEXTURE_TARGETS: nat := 11

  // BufferTargets: compact indices of the buffer-binding targets.
  const ARRAY_BUFFER: nat := 0
  const ATOMIC_COUNTER_BUFFER: nat := 1
  const COPY_READ_BUFFER: nat := 2
  const COPY_WRITE_BUFFER: nat := 3
  const DRAW_INDIRECT_BUFFER: nat := 4
  const DISPATCH_INDIRECT_BUFFER: nat := 5
  const ELEMENT_ARRAY_BUFFER: nat := 6
  const PIXEL_PACK_BUFFER: nat := 7
  const PIXEL_UNPACK_BUFFER: nat := 8
  const SHADER_STORAGE_BUFFER: nat := 9
  const TEXTURE_BUFFER_TARGET: nat := 10
  const TRANSFORM_FEEDBACK_BUFFER: nat := 11
  const UNIFORM_BUFFER: nat := 12
  const NUM_BUFFER_TARGETS: nat := 13

  // EFrameBufferTargets: the two slots of the framebuffer cache.
  const DRAW_FRAMEBUFFER: nat := 0
  const READ_FRAMEBUFFER: nat := 1

  /** Sizes of the cache tables; the engine sizes them with these GL tokens. */
  const MAX_TEXTURE_UNITS: nat := GL_MAX_COMBINED_TEXTURE_IMAGE_UNITS as nat
  const MAX_ATOMIC_BINDINGS: nat := GL_MAX_COMBINED_ATOMIC_COUNTER_BUFFERS as nat

  /** The GL-token-to-index table the constructor fills for texture targets. */
  const TEX_TARGET_INDEX: map<uint32, nat> := map[
    GL_TEXTURE_1D := TEXTURE_1D,
    GL_TEXTURE_2D := TEXTURE_2D,
    GL_TEXTURE_3D := TEXTURE_3D,
    GL_TEXTURE_1D_ARRAY := TEXTURE_1D_ARRAY,
    GL_TEXTURE_2D_ARRAY := TEXTURE_2D_ARRAY,
    GL_TEXTURE_RECTANGLE := TEXTURE_RECTANGLE,
    GL_TEXTURE_CUBE_MAP := TEXTURE_CUBE_MAP,
    GL_TEXTURE_CUBE_MAP_ARRAY := TEXTURE_CUBE_MAP_ARRAY,
    GL_TEXTURE_BUFFER := TEXTURE_BUFFER,
    GL_TEXTURE_2D_MULTISAMPLE := TEXTURE_2D_MULTISAMPLE,
    GL_TEXTURE_2D_MULTISAMPLE_ARRAY := TEXTURE_2D_MULTISAMPLE_ARRAY]

  /** The GL-token-to-index table the constructor fills for buffer targets. */
  const BUFFER_TARGET_INDEX: map<uint32, nat> := map[
    GL_ARRAY_BUFFER := ARRAY_BUFFER,
    GL_ATOMIC_COUNTER_BUFFER := ATOMIC_COUNTER_BUFFER,
    GL_COPY_READ_BUFFER := COPY_READ_BUFFER,
    GL_COPY_WRITE_BUFFER := COPY_WRITE_BUFFER,
    GL_DRAW_INDIRECT_BUFFER := DRAW_INDIRECT_BUFFER,
    GL_DISPATCH_INDIRECT_BUFFER := DISPATCH_INDIRECT_BUFFER,
    GL_ELEMENT_ARRAY_BUFFER := ELEMENT_ARRAY_BUFFER,
    GL_PIXEL_PACK_BUFFER := PIXEL_PACK_BUFFER,
    GL_PIXEL_UNPACK_BUFFER := PIXEL_UNPACK_BUFFER,
    GL_SHADER_STORAGE_BUFFER := SHADER_STORAGE_BUFFER,
    GL_TEXTURE_BUFFER := TEXTURE_BUFFER_TARGET,
    GL_TRANSFORM_FEEDBACK_BUFFER := TRANSFORM_FEEDBACK_BUFFER,
    GL_UNIFORM_BUFFER := UNIFORM_BUFFER]

  /** The GL token of each TextureTargets value, at that value's position. */
  const TEXTURE_TARGET_TOKENS: seq<uint32> := [
    GL_TEXTURE_1D, GL_TEXTURE_2D, GL_TEXTURE_3D, GL_TEXTURE_1D_ARRAY, GL_TEXTURE_2D_ARRAY,
    GL_TEXTURE_RECTANGLE, GL_TEXTURE_CUBE_MAP, GL_TEXTURE_CUBE_MAP_ARRAY, GL_TEXTURE_BUFFER,
    GL_TEXTURE_2D_MULTISAMPLE, GL_TEXTURE_2D_MULTISAMPLE_ARRAY]

  /** The GL token of each BufferTargets value, at that value's position. */
  const BUFFER_TARGET_TOKENS: seq<uint32> := [
    GL_ARRAY_BUFFER, GL_ATOMIC_COUNTER_BUFFER, GL_COPY_READ_BUFFER, GL_COPY_WRITE_BUFFER,
    GL_DRAW_INDIRECT_BUFFER, GL_DISPATCH_INDIRECT_BUFFER, GL_ELEMENT_ARRAY_BUFFER,
    GL_PIXEL_PACK_BUFFER, GL_PIXEL_UNPACK_BUFFER, GL_SHADER_STORAGE_BUFFER, GL_TEXTURE_BUFFER,
    GL_TRANSFORM_FEEDBACK_BUFFER, GL_UNIFORM_BUFFER]

  /** The texture table sends the token of every TextureTargets value to that
      value and holds nothing else; the tokens are distinct, so it holds
      NUM_TEXTURE_TARGETS entries and the constructor's size check passes. */
  lemma TextureTargetTable()
    ensures |TEXTURE_TARGET_TOKENS| == NUM_TEXTURE_TARGETS && NoDup(TEXTURE_TARGET_TOKENS)
    ensures forall i :: 0 <= i < NUM_TEXTURE_TARGETS ==>
      TEXTURE_TARGET_TOKENS[i] in TEX_TARGET_INDEX && TEX_TARGET_INDEX[TEXTURE_TARGET_TOKENS[i]] == i
    ensures TEX_TARGET_INDEX.Keys == set t | t in TEXTURE_TARGET_TOKENS
    ensures |TEX_TARGET_INDEX| == NUM_TEXTURE_TARGETS
  {
    TextureTokensDistinct();
    TextureTableKeys();
    DistinctCard(TEXTURE_TARGET_TOKENS);
  }

  lemma TextureTokensDistinct()
    ensures NoDup(TEXTURE_TARGET_TOKENS)
  {
  }

  lemma TextureTableKeys()
    ensures forall i :: 0 <= i < NUM_TEXTURE_TARGETS ==>
      TEXTURE_TARGET_TOKENS[i] in TEX_TARGET_INDEX && TEX_TARGET_INDEX[TEXTURE_TARGET_TOKENS[i]] == i
    ensures TEX_TARGET_INDEX.Keys == set t | t in TEXTURE_TARGET_TOKENS
  {
  }

  /** The same for the buffer table and BufferTargets. */
  lemma BufferTargetTable()
    ensures |BUFFER_TARGET_TOKENS| == NUM_BUFFER_TARGETS && NoDup(BUFFER_TARGET_TOKENS)
    ensures forall i :: 0 <= i < NUM_BUFFER_TARGETS ==>
      BUFFER_TARGET_TOKENS[i] in BUFFER_TARGET_INDEX && BUFFER_TARGET_INDEX[BUFFER_TARGET_TOKENS[i]] == i
    ensures BUFFER_TARGET_INDEX.Keys == set t | t in BUFFER_TARGET_TOKENS
    ensures |BUFFER_TARGET_INDEX| == NUM_BUFFER_TARGETS
  {
    BufferTokensDistinct();
    BufferTableKeys();
    DistinctCard(BUFFER_TARGET_TOKENS);
  }

  lemma BufferTokensDistinct()
    ensures NoDup(BUFFER_TARGET_TOKENS)
  {
  }

  lemma BufferTableKeys()
    ensures forall i :: 0 <= i < NUM_BUFFER_TARGETS ==>
      BUFFER_TARGET_TOKENS[i] in BUFFER_TARGET_INDEX && BUFFER_TARGET_INDEX[BUFFER_TARGET_TOKENS[i]] == i
    ensures BUFFER_TARGET_INDEX.Keys == set t | t in BUFFER_TARGET_TOKENS
  {
  }

  /** The texture-cache column bindTexture uses for a target: its table
      entry, or the entry 0 that std::map::operator[] inserts for an unknown
      target (which is the TEXTURE_1D column). */
  function TexSlot(target: uint32): (slot: nat)
    ensures slot < NUM_TEXTURE_TARGETS
    ensures target !in TEX_TARGET_INDEX ==> slot == TEXTURE_1D
  {
    if target in TEX_TARGET_INDEX then TEX_TARGET_INDEX[target] else TEXTURE_1D
  }

  /** Optimizer*: the built-in SimpleOptimizer or one the client installed. */
  datatype Optimizer = SimpleOptimizer | CustomOptimizer(id: nat)

  /** Identity of a SceneNodeComponent*. */
  type ComponentId = nat

  /** The operations that survive the removal of `comp`: those that do not
      depend on it. */
  function Independent(comp: ComponentId, dependsOn: (OperationId, ComponentId) -> bool): OperationId -> bool
  {
    (op: OperationId) => !dependsOn(op, comp)
  }

  /** onRemoveComponent as written, from position i of the operation list:
      the first dependent operation is erased, and the loop then increments
      the iterator that erase invalidated, which is undefined (None). */
  function OnRemoveComponentAsWritten(ops: seq<OperationId>, comp: ComponentId,
                                      dependsOn: (OperationId, ComponentId) -> bool, i: nat): Option<seq<OperationId>>
    decreases |ops| - i
  {
    if i >= |ops| then Some(ops)
    else if dependsOn(ops[i], comp) then None
    else OnRemoveComponentAsWritten(ops, comp, dependsOn, i + 1)
  }

  /** As written, the removal is defined exactly when no operation depends on
      the component, and then removes nothing. */
  lemma {:induction false} OnRemoveComponentAsWrittenDefined(ops: seq<OperationId>, comp: ComponentId,
                                                            dependsOn: (OperationId, ComponentId) -> bool, i: nat)
    requires i <= |ops|
    ensures OnRemoveComponentAsWritten(ops, comp, dependsOn, i).Some? <==>
      forall k :: i <= k < |ops| ==> !dependsOn(ops[k], comp)
    ensures OnRemoveComponentAsWritten(ops, comp, dependsOn, i).Some? ==>
      OnRemoveComponentAsWritten(ops, comp, dependsOn, i).value == ops
    decreases |ops| - i
  {
    if i < |ops| && !dependsOn(ops[i], comp) {
      OnRemoveComponentAsWrittenDefined(ops, comp, dependsOn, i + 1);
    }
  }

  /** Operations 7 and 8 with only 7 depending on the component: the loop as
      written is undefined, while the intended removal leaves [8]. */
  lemma OnRemoveComponentExample()
    ensures OnRemoveComponentAsWritten([7, 8], 1, (op: OperationId, c: ComponentId) => op == 7, 0) == None
    ensures Filter<OperationId>([7, 8], Independent(1, (op: OperationId, c: ComponentId) => op == 7)) == [8]
  {
    var keep := Independent(1, (op: OperationId, c: ComponentId) => op == 7);
    var ops: seq<OperationId>, tail: seq<OperationId> := [7, 8], [8];
    assert ops[1..] == tail && tail[1..] == [];
    assert Filter(tail, keep) == tail;
  }

  class RenderManager {
    var screenRes: IVec2
    var viewport: IVec4
    var optimizer: Option<Optimizer>
    var operations: seq<OperationId>
    const stages: Vector<FrameBufferStage>

    // Device-state shadow.
    var activeTextureUnit: uint32
    var vao: uint32
    var vbo: uint32
    var ibo: uint32
    var shaderProgram: uint32
    const boundAtomicBuffers: array<uint32>
    const boundTextures: array2<uint32>
    const boundSamplers: array<uint32>
    const boundBuffers: array<uint32>
    const boundFrameBuffers: array<uint32>
    var colorMask: BVec4
    var texTargetMap: map<uint32, nat>
    const bufferTargetMap: map<uint32, nat>

    var useGPUprofiling: bool
    /** The constructor never initializes _useGPUprofiling. */
    ghost var profilingSet: bool

    /** Every call made to the device, in order. */
    ghost var calls: seq<DeviceCall>
    /** Every Operation::execute() run by renderFrame, in order. */
    ghost var executed: seq<OperationId>

    ghost predicate Valid()
      reads this
    {
      CacheShape() && TablesValid()
    }

    /** The cache arrays have the sizes the constructor gives them and are
        distinct objects. */
    ghost predicate CacheShape() {
      boundTextures.Length0 == MAX_TEXTURE_UNITS &&
      boundTextures.Length1 == NUM_TEXTURE_TARGETS &&
      boundAtomicBuffers.Length == MAX_ATOMIC_BINDINGS &&
      boundSamplers.Length == MAX_TEXTURE_UNITS &&
      boundBuffers.Length == NUM_BUFFER_TARGETS &&
      boundFrameBuffers.Length == 2 &&
      boundAtomicBuffers != boundSamplers && boundAtomicBuffers != boundBuffers &&
      boundAtomicBuffers != boundFrameBuffers && boundSamplers != boundBuffers &&
      boundSamplers != boundFrameBuffers && boundBuffers != boundFrameBuffers
    }

    /** The buffer table is the constructor's; the texture table is the
        constructor's plus the entries bindTexture inserted. */
    ghost predicate TablesValid()
      reads this`texTargetMap
    {
      bufferTargetMap == BUFFER_TARGET_INDEX &&
      (forall t :: t in TEX_TARGET_INDEX ==> t in texTargetMap) &&
      (forall t :: t in texTargetMap ==> texTargetMap[t] == TexSlot(t))
    }

    /** Every cached binding is 0, as the constructor's memsets leave them. */
    ghost predicate CachesCleared()
      reads boundTextures, boundBuffers, boundSamplers, boundAtomicBuffers, boundFrameBuffers
    {
      (forall u, t :: 0 <= u < boundTextures.Length0 && 0 <= t < boundTextures.Length1 ==> boundTextures[u, t] == 0) &&
      (forall k :: 0 <= k < boundBuffers.Length ==> boundBuffers[k] == 0) &&
      (forall k :: 0 <= k < boundSamplers.Length ==> boundSamplers[k] == 0) &&
      (forall k :: 0 <= k < boundAtomicBuffers.Length ==> boundAtomicBuffers[k] == 0) &&
      forall k :: 0 <= k < boundFrameBuffers.Length ==> boundFrameBuffers[k] == 0
    }

    /** The state of a freshly constructed manager (RenderManager.cpp:33-107). */
    constructor ()
      ensures Valid()
      ensures fresh(boundAtomicBuffers) && fresh(boundTextures) && fresh(boundSamplers)
      ensures fresh(boundBuffers) && fresh(boundFrameBuffers) && fresh(stages)
      ensures optimizer == None && operations == [] && stages.elems == []
      ensures colorMask == BVec4(true, true, true, true)
      ensures ibo == 0 && vbo == 0 && vao == 0 && activeTextureUnit == 0
      ensures viewport == IVec4(0, 0, 0, 0) && screenRes == IVec2(0, 0)
      ensures shaderProgram == HANDLE_INVALID
      ensures texTargetMap == TEX_TARGET_INDEX
      ensures CachesCleared()
      ensures !profilingSet
      ensures calls == [] && executed == []
    {
      optimizer := None;
      colorMask := BVec4(true, true, true, true);
      ibo, vbo, vao := 0, 0, 0;
      viewport := IVec4(0, 0, 0, 0);
      activeTextureUnit := 0;
      screenRes := IVec2(0, 0);
      shaderProgram := HANDLE_INVALID;
      operations := [];
      stages := new Vector();
      bufferTargetMap := BUFFER_TARGET_INDEX;
      texTargetMap := TEX_TARGET_INDEX;
      boundTextures := new uint32[MAX_TEXTURE_UNITS, NUM_TEXTURE_TARGETS]((u, t) => 0);
      boundBuffers := new uint32[NUM_BUFFER_TARGETS](k => 0);
      boundSamplers := new uint32[MAX_TEXTURE_UNITS](k => 0);
      boundFrameBuffers := new uint32[2](k => 0);
      boundAtomicBuffers := new uint32[MAX_ATOMIC_BINDINGS](k => 0);
      profilingSet := false;
      calls := [];
      executed := [];
      // The closing activeTexture(0) finds the unit already 0 and issues
      // nothing, so its effect is the state above.
    }

    /** The width and height of the viewport. */
    function GetRenderResolution(): IVec2 reads this { IVec2(viewport.z, viewport.w) }

    function GetViewport(): IVec4 reads this { viewport }

    method SetViewport(newViewport: IVec4)
      modifies this`viewport, this`calls
      ensures GetViewport() == newViewport
      ensures GetRenderResolution() == IVec2(newViewport.z, newViewport.w)
      ensures calls == old(calls) +
        if old(viewport) != newViewport
        then [GlViewport(newViewport.x, newViewport.y, newViewport.z, newViewport.w)] else []
    {
      if newViewport == viewport {
        return;
      }
      viewport := newViewport;
      calls := calls + [GlViewport(viewport.x, viewport.y, viewport.z, viewport.w)];
      // resolutionChanged() has an empty body.
    }

    function GetScreenResolution(): IVec2 reads this { screenRes }

    /** The screen resolution is independent of the viewport. */
    method SetScreenResolution(res: IVec2)
      modifies this`screenRes
      ensures GetScreenResolution() == res
      ensures GetViewport() == old(GetViewport())
      ensures GetRenderResolution() == old(GetRenderResolution())
    {
      screenRes := res;
    }

    function GetFrameBufferStages(): Vector<FrameBufferStage> { stages }

    method SetUseGPUprofiling(useProfiling: bool)
      modifies this`useGPUprofiling, this`profilingSet
      ensures profilingSet && GetUseGPUprofiling() == useProfiling
    {
      useGPUprofiling := useProfiling;
      profilingSet := true;
    }

    function GetUseGPUprofiling(): bool
      requires profilingSet
      reads this
    {
      useGPUprofiling
    }

    /** setOptimizer, for an optimizer other than the installed one; None
        is NULL, after which the next frame installs a SimpleOptimizer. */
    method SetOptimizer(opt: Option<Optimizer>)
      modifies this`optimizer
      ensures optimizer == opt
    {
      optimizer := opt;
    }

    /** One frame: install a SimpleOptimizer if none is set, let the
        optimizer rebuild the operation list from the stages, then execute
        every listed operation once, in list order.  The optimizer's result
        comes from `optimize`, since its body is not part of this model.
        What each execute() does is not modelled either, so the caches, the
        device log, the stage list and every stage and pass (their lists and
        their run-once `executed` flags) are left unconstrained. */
    method RenderFrame(optimize: (Optimizer, seq<FrameBufferStage>, seq<OperationId>) -> seq<OperationId>)
      requires Valid()
      modifies this, boundAtomicBuffers, boundTextures, boundSamplers, boundBuffers, boundFrameBuffers
      modifies stages, set st, o | st in stages.elems && o in st.Parts() :: o
      ensures Valid()
      ensures optimizer == Some(old(optimizer).GetOr(SimpleOptimizer))
      ensures operations == optimize(optimizer.value, old(stages.elems), old(operations))
      ensures executed == old(executed) + operations
    {
      if optimizer == None {
        SetOptimizer(Some(SimpleOptimizer));
      }
      operations := optimize(optimizer.value, stages.elems, operations);
      var ops := operations;
      var i := 0;
      while i < |ops|
        invariant 0 <= i <= |ops|
        invariant Valid()
        invariant optimizer == Some(old(optimizer).GetOr(SimpleOptimizer)) && operations == ops
        invariant operations == optimize(optimizer.value, old(stages.elems), old(operations))
        invariant executed == old(executed) + ops[..i]
      {
        executed := executed + [ops[i]];  // ops[i]->execute()
        i := i + 1;
      }
      assert ops[..i] == ops;
    }

    /** onRemoveComponent as intended: drop exactly the operations that
        depend on the removed component, keeping the others in order. */
    method OnRemoveComponent(comp: ComponentId, dependsOn: (OperationId, ComponentId) -> bool)
      modifies this`operations
      ensures operations == Filter(old(operations), Independent(comp, dependsOn))
    {
      var ops := operations;
      var keep := Independent(comp, dependsOn);
      var kept: seq<OperationId> := [];
      var i := 0;
      while i < |ops|
        invariant 0 <= i <= |ops|
        invariant kept == Filter(ops[..i], keep)
      {
        FilterConcat(ops[..i], [ops[i]], keep);
        assert ops[..i + 1] == ops[..i] + [ops[i]];
        if !dependsOn(ops[i], comp) {
          kept := kept + [ops[i]];
        }
        i := i + 1;
      }
      assert ops[..i] == ops;
      operations := kept;
    }

    // OpenGL-state wrappers.

    method BindVBO(handle: uint32)
      modifies this`vbo, this`calls
      ensures vbo == handle
      ensures calls == old(calls) + if old(vbo) != handle then [GlBindBuffer(GL_ARRAY_BUFFER, handle)] else []
    {
      if vbo != handle {
        vbo := handle;
        calls := calls + [GlBindBuffer(GL_ARRAY_BUFFER, handle)];
      }
    }

    method BindVAO(handle: uint32)
      modifies this`vao, this`calls
      ensures vao == handle
      ensures calls == old(calls) + if old(vao) != handle then [GlBindVertexArray(handle)] else []
    {
      if vao != handle {
        vao := handle;
        calls := calls + [GlBindVertexArray(handle)];
      }
    }

    method BindIBO(handle: uint32)
      modifies this`ibo, this`calls
      ensures ibo == handle
      ensures calls == old(calls) + if old(ibo) != handle then [GlBindBuffer(GL_ELEMENT_ARRAY_BUFFER, handle)] else []
    {
      if ibo != handle {
        ibo := handle;
        calls := calls + [GlBindBuffer(GL_ELEMENT_ARRAY_BUFFER, handle)];
      }
    }

    method UseShaderProgram(program: uint32)
      modifies this`shaderProgram, this`calls
      ensures shaderProgram == program
      ensures calls == old(calls) + if old(shaderProgram) != program then [GlUseProgram(program)] else []
    {
      if shaderProgram != program {
        shaderProgram := program;
        calls := calls + [GlUseProgram(program)];
      }
    }

    /** bindTexture(unit, target, handle). */
    method BindTextureAt(unit: uint32, target: uint32, handle: uint32)
      requires Valid()
      requires unit as nat < MAX_TEXTURE_UNITS
      modifies this`texTargetMap, this`activeTextureUnit, this`calls, boundTextures
      ensures Valid()
      ensures texTargetMap == old(texTargetMap)[target := TexSlot(target)]
      ensures boundTextures[unit, TexSlot(target)] == handle
      ensures forall u, t :: 0 <= u < MAX_TEXTURE_UNITS && 0 <= t < NUM_TEXTURE_TARGETS &&
                (u != unit as nat || t != TexSlot(target))
                ==> boundTextures[u, t] == old(boundTextures[u, t])
      ensures old(boundTextures[unit, TexSlot(target)]) != handle ==>
        activeTextureUnit == unit &&
        calls == old(calls) +
          (if old(activeTextureUnit) != unit then [GlActiveTexture(AddWrap32(GL_TEXTURE0, unit))] else []) +
          [GlBindTexture(target, handle)]
      ensures old(boundTextures[unit, TexSlot(target)]) == handle ==>
        activeTextureUnit == old(activeTextureUnit) && calls == old(calls)
    {
      var slot := if target in texTargetMap then texTargetMap[target] else 0;
      texTargetMap := texTargetMap[target := slot];
      if boundTextures[unit, slot] != handle {
        ActiveTexture(unit);
        calls := calls + [GlBindTexture(target, handle)];
        boundTextures[unit, slot] := handle;
      }
    }

    /** bindTexture(target, handle): the same on the active texture unit. */
    method BindTexture(target: uint32, handle: uint32)
      requires Valid()
      requires activeTextureUnit as nat < MAX_TEXTURE_UNITS
      modifies this`texTargetMap, this`activeTextureUnit, this`calls, boundTextures
      ensures Valid()
      ensures activeTextureUnit == old(activeTextureUnit)
      ensures texTargetMap == old(texTargetMap)[target := TexSlot(target)]
      ensures boundTextures[activeTextureUnit, TexSlot(target)] == handle
      ensures forall u, t :: 0 <= u < MAX_TEXTURE_UNITS && 0 <= t < NUM_TEXTURE_TARGETS &&
                (u != activeTextureUnit as nat || t != TexSlot(target))
                ==> boundTextures[u, t] == old(boundTextures[u, t])
      ensures calls == old(calls) +
        if old(boundTextures[activeTextureUnit, TexSlot(target)]) != handle then [GlBindTexture(target, handle)] else []
    {
      BindTextureAt(activeTextureUnit, target, handle);
    }

    /** bindSampler: the sampler cache is disabled, so the call is always made. */
    method BindSampler(unit: uint32, sampler: uint32)
      modifies this`activeTextureUnit, this`calls
      ensures activeTextureUnit == unit
      ensures calls == old(calls) +
        (if old(activeTextureUnit) != unit then [GlActiveTexture(AddWrap32(GL_TEXTURE0, unit))] else []) +
        [GlBindSampler(unit, sampler)]
    {
      ActiveTexture(unit);
      calls := calls + [GlBindSampler(unit, sampler)];
    }

    method ActiveTexture(unit: uint32)
      modifies this`activeTextureUnit, this`calls
      ensures activeTextureUnit == unit
      ensures calls == old(calls) +
        if old(activeTextureUnit) != unit then [GlActiveTexture(AddWrap32(GL_TEXTURE0, unit))] else []
    {
      if activeTextureUnit != unit {
        activeTextureUnit := unit;
        calls := calls + [GlActiveTexture(AddWrap32(GL_TEXTURE0, unit))];
      }
    }

    /** bindFrameBuffer as written: the read and draw branches are nested in
        the GL_FRAMEBUFFER test, so only GL_FRAMEBUFFER binds do anything. */
    method BindFrameBuffer(target: uint32, handle: uint32)
      requires Valid()
      modifies boundFrameBuffers, this`shaderProgram, this`calls
      ensures target != GL_FRAMEBUFFER ==>
        boundFrameBuffers[..] == old(boundFrameBuffers[..]) &&
        shaderProgram == old(shaderProgram) && calls == old(calls)
      ensures (target == GL_FRAMEBUFFER &&
        (old(boundFrameBuffers[READ_FRAMEBUFFER]) != handle || old(boundFrameBuffers[DRAW_FRAMEBUFFER]) != handle)) ==>
        boundFrameBuffers[READ_FRAMEBUFFER] == handle && boundFrameBuffers[DRAW_FRAMEBUFFER] == handle &&
        shaderProgram == HANDLE_INVALID && calls == old(calls) + [GlBindFramebuffer(GL_FRAMEBUFFER, handle)]
      ensures (target == GL_FRAMEBUFFER &&
        old(boundFrameBuffers[READ_FRAMEBUFFER]) == handle && old(boundFrameBuffers[DRAW_FRAMEBUFFER]) == handle) ==>
        boundFrameBuffers[..] == old(boundFrameBuffers[..]) &&
        if handle == GL_DRAW_FRAMEBUFFER
        then shaderProgram == HANDLE_INVALID && calls == old(calls) + [GlBindFramebuffer(GL_DRAW_FRAMEBUFFER, handle)]
        else shaderProgram == old(shaderProgram) && calls == old(calls)
    {
      if target == GL_FRAMEBUFFER {
        if boundFrameBuffers[READ_FRAMEBUFFER] != handle || boundFrameBuffers[DRAW_FRAMEBUFFER] != handle {
          boundFrameBuffers[READ_FRAMEBUFFER] := handle;
          boundFrameBuffers[DRAW_FRAMEBUFFER] := handle;
          calls := calls + [GlBindFramebuffer(GL_FRAMEBUFFER, handle)];
          shaderProgram := HANDLE_INVALID;
        } else if handle == GL_DRAW_FRAMEBUFFER {
          // The `fboTarget == GL_READ_FRAMEBUFFER` branch before this one
          // can never be taken here, inside the GL_FRAMEBUFFER test.
          if boundFrameBuffers[DRAW_FRAMEBUFFER] != 0 {
            boundFrameBuffers[DRAW_FRAMEBUFFER] := handle;
            calls := calls + [GlBindFramebuffer(GL_DRAW_FRAMEBUFFER, handle)];
            shaderProgram := HANDLE_INVALID;
          }
        }
      }
    }

    /** bindFrameBuffer with the read and draw branches at the outer level,
        each keyed on the target and cached like the combined bind. */
    method BindFrameBufferIntended(target: uint32, handle: uint32)
      requires Valid()
      modifies boundFrameBuffers, this`shaderProgram, this`calls
      ensures target == GL_FRAMEBUFFER ==>
        boundFrameBuffers[READ_FRAMEBUFFER] == handle && boundFrameBuffers[DRAW_FRAMEBUFFER] == handle
      ensures target == GL_READ_FRAMEBUFFER ==>
        boundFrameBuffers[READ_FRAMEBUFFER] == handle &&
        boundFrameBuffers[DRAW_FRAMEBUFFER] == old(boundFrameBuffers[DRAW_FRAMEBUFFER])
      ensures target == GL_DRAW_FRAMEBUFFER ==>
        boundFrameBuffers[DRAW_FRAMEBUFFER] == handle &&
        boundFrameBuffers[READ_FRAMEBUFFER] == old(boundFrameBuffers[READ_FRAMEBUFFER])
      ensures target !in {GL_FRAMEBUFFER, GL_READ_FRAMEBUFFER, GL_DRAW_FRAMEBUFFER} ==>
        boundFrameBuffers[..] == old(boundFrameBuffers[..])
      ensures IntendedBindNeeded(target, handle, old(boundFrameBuffers[READ_FRAMEBUFFER]), old(boundFrameBuffers[DRAW_FRAMEBUFFER])) ==>
        shaderProgram == HANDLE_INVALID && calls == old(calls) + [GlBindFramebuffer(target, handle)]
      ensures !IntendedBindNeeded(target, handle, old(boundFrameBuffers[READ_FRAMEBUFFER]), old(boundFrameBuffers[DRAW_FRAMEBUFFER])) ==>
        shaderProgram == old(shaderProgram) && calls == old(calls)
    {
      if target == GL_FRAMEBUFFER {
        if boundFrameBuffers[READ_FRAMEBUFFER] != handle || boundFrameBuffers[DRAW_FRAMEBUFFER] != handle {
          boundFrameBuffers[READ_FRAMEBUFFER] := handle;
          boundFrameBuffers[DRAW_FRAMEBUFFER] := handle;
          calls := calls + [GlBindFramebuffer(GL_FRAMEBUFFER, handle)];
          shaderProgram := HANDLE_INVALID;
        }
      } else if target == GL_READ_FRAMEBUFFER {
        if boundFrameBuffers[READ_FRAMEBUFFER] != handle {
          boundFrameBuffers[READ_FRAMEBUFFER] := handle;
          calls := calls + [GlBindFramebuffer(GL_READ_FRAMEBUFFER, handle)];
          shaderProgram := HANDLE_INVALID;
        }
      } else if target == GL_DRAW_FRAMEBUFFER {
        if boundFrameBuffers[DRAW_FRAMEBUFFER] != handle {
          boundFrameBuffers[DRAW_FRAMEBUFFER] := handle;
          calls := calls + [GlBindFramebuffer(GL_DRAW_FRAMEBUFFER, handle)];
          shaderProgram := HANDLE_INVALID;
        }
      }
    }

    method AddFramebufferStage(stage: FrameBufferStage)
      modifies stages
      ensures stages.elems == old(stages.elems) + [stage]
    {
      stages.PushBack(stage);
    }

    method SwapFramebufferStage(which: FrameBufferStage, towhere: FrameBufferStage)
      modifies stages
      ensures stages.elems == SwapFirst(old(stages.elems), which, towhere)
    {
      var i := IndexOf(stages.elems, which);
      var j := IndexOf(stages.elems, towhere);
      if i < |stages.elems| && j < |stages.elems| {
        stages.Swap(i, j);
      }
    }

    method RemoveFrameBufferStage(stage: FrameBufferStage)
      modifies stages
      ensures stages.elems == RemoveFirst(old(stages.elems), stage)
    {
      var i := IndexOf(stages.elems, stage);
      if i < |stages.elems| {
        stages.Erase(i);
      }
    }

    method BindBuffer(target: uint32, handle: uint32)
      requires Valid()
      modifies boundBuffers, this`calls
      ensures target !in BUFFER_TARGET_INDEX ==>
        boundBuffers[..] == old(boundBuffers[..]) && calls == old(calls)
      ensures target in BUFFER_TARGET_INDEX ==>
        var slot := BUFFER_TARGET_INDEX[target];
        slot < NUM_BUFFER_TARGETS && boundBuffers[slot] == handle &&
        (forall k :: 0 <= k < NUM_BUFFER_TARGETS && k != slot ==> boundBuffers[k] == old(boundBuffers[k])) &&
        calls == old(calls) + if old(boundBuffers[slot]) != handle then [GlBindBuffer(target, handle)] else []
    {
      if target !in bufferTargetMap {
        // "[ERROR] ... Buffer-target is invalid" is logged.
        return;
      }
      var slot := bufferTargetMap[target];
      if boundBuffers[slot] != handle {
        boundBuffers[slot] := handle;
        calls := calls + [GlBindBuffer(target, handle)];
      }
    }

    method BindBufferBase(target: uint32, bindingPoint: uint32, handle: uint32)
      requires Valid()
      modifies boundAtomicBuffers, this`calls
      ensures target == GL_ATOMIC_COUNTER_BUFFER && (bindingPoint as nat) < MAX_ATOMIC_BINDINGS ==>
        boundAtomicBuffers[bindingPoint] == handle &&
        (forall k :: 0 <= k < MAX_ATOMIC_BINDINGS && k != bindingPoint as nat ==>
           boundAtomicBuffers[k] == old(boundAtomicBuffers[k])) &&
        calls == old(calls) +
          if old(boundAtomicBuffers[bindingPoint]) != handle then [GlBindBufferBase(target, bindingPoint, handle)] else []
      ensures target != GL_ATOMIC_COUNTER_BUFFER || (bindingPoint as nat) >= MAX_ATOMIC_BINDINGS ==>
        boundAtomicBuffers[..] == old(boundAtomicBuffers[..]) && calls == old(calls)
    {
      if target == GL_ATOMIC_COUNTER_BUFFER {
        if bindingPoint < GL_MAX_COMBINED_ATOMIC_COUNTER_BUFFERS {
          if boundAtomicBuffers[bindingPoint] != handle {
            boundAtomicBuffers[bindingPoint] := handle;
            calls := calls + [GlBindBufferBase(target, bindingPoint, handle)];
          }
        }
      } else {
        // "[ERROR] ... not implemented or is invalid" is logged.
      }
    }

    method SetColorMask(red: bool, green: bool, blue: bool, alpha: bool)
      modifies this`colorMask, this`calls
      ensures colorMask == BVec4(red, green, blue, alpha)
      ensures calls == old(calls) +
        if old(colorMask) != BVec4(red, green, blue, alpha) then [GlColorMask(red, green, blue, alpha)] else []
    {
      if colorMask.r == red && colorMask.g == green && colorMask.b == blue && colorMask.a == alpha {
        return;
      }
      colorMask := BVec4(red, green, blue, alpha);
      calls := calls + [GlColorMask(red, green, blue, alpha)];
    }

    /** setGLcapability: the early return is commented out, so the state is
        queried and then always set. */
    method SetGLcapability(cap: uint32, enable: bool)
      modifies this`calls
      ensures calls == old(calls) + [GlIsEnabled(cap), if enable then GlEnable(cap) else GlDisable(cap)]
    {
      calls := calls + [GlIsEnabled(cap)];
      if enable {
        calls := calls + [GlEnable(cap)];
      } else {
        calls := calls + [GlDisable(cap)];
      }
    }
  }

  /** The read/draw half of bindFrameBufferIntended's cache test. */
  predicate IntendedBindNeeded(target: uint32, handle: uint32, read: uint32, draw: uint32) {
    if target == GL_FRAMEBUFFER then read != handle || draw != handle
    else if target == GL_READ_FRAMEBUFFER then read != handle
    else if target == GL_DRAW_FRAMEBUFFER then draw != handle
    else false
  }
}
