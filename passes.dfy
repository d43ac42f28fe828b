/** The two upper levels of the pass hierarchy: a framebuffer stage holds
    shader-program passes, a shader-program pass holds node passes, and both
    hold startup, finish, internal-startup and internal-finish operation
    lists.  Only their fields and their inline accessors and setters are
    modelled; the pointers they hold to operations, node passes, framebuffers
    and shader programs are identities. */
module Passes {
  import opened GL
  import opened Wrappers
  import opened Containers

  /** Identity of an Operation* (pointer equality). */
  type OperationId = nat
  /** Identity of a NodePass*. */
  type NodePassId = nat
  /** Identity of a FrameBuffer*. */
  type FrameBufferId = nat
  /** Identity of a ShaderProgram*. */
  type ShaderProgramId = nat

  /** EOperationExecutionType: run every frame, or only the first time. */
  datatype ExecutionType = ExecuteOnce | ExecuteRepeating

  class ShaderProgramPass {
    var id: nat
    var program: Option<ShaderProgramId>
    const startupOperations: Vector<OperationId>
    const finishOperations: Vector<OperationId>
    const internalStartup: Vector<OperationId>
    const internalFinish: Vector<OperationId>
    const nodePasses: Vector<NodePassId>
    var executionType: ExecutionType
    var executed: bool
    var name: string

    /** The five lists are five separate vectors. */
    ghost predicate Valid()
      reads this
    {
      startupOperations != finishOperations && startupOperations != internalStartup &&
      startupOperations != internalFinish && finishOperations != internalStartup &&
      finishOperations != internalFinish && internalStartup != internalFinish &&
      nodePasses != startupOperations && nodePasses != finishOperations &&
      nodePasses != internalStartup && nodePasses != internalFinish
    }

    /** The pass and its five lists: what running its operations may touch. */
    ghost function Parts(): set<object> {
      {this, startupOperations, finishOperations, internalStartup, internalFinish, nodePasses}
    }

    /** ShaderProgramPass(prog), or the default constructor with None. Their
        bodies are not part of this model: this one only provides empty,
        separate lists, and fixes neither the program nor the name. */
    constructor (prog: Option<ShaderProgramId>)
      ensures Valid()
      ensures fresh(startupOperations) && fresh(finishOperations) && fresh(internalStartup)
      ensures fresh(internalFinish) && fresh(nodePasses)
      ensures startupOperations.elems == [] && finishOperations.elems == []
      ensures internalStartup.elems == [] && internalFinish.elems == [] && nodePasses.elems == []
    {
      program := prog;
      startupOperations := new Vector();
      finishOperations := new Vector();
      internalStartup := new Vector();
      internalFinish := new Vector();
      nodePasses := new Vector();
    }

    /** getNodePasses: the live vector. */
    function GetNodePasses(): Vector<NodePassId> { nodePasses }
    /** getStartupOperations: the live vector. */
    function GetStartupOperations(): Vector<OperationId> { startupOperations }
    /** getFinishOperations: the live vector. */
    function GetFinishOperations(): Vector<OperationId> { finishOperations }
    /** getInternalStartupOperations: the live vector. */
    function GetInternalStartupOperations(): Vector<OperationId> { internalStartup }
    /** getInternalFinishOperations: the live vector. */
    function GetInternalFinishOperations(): Vector<OperationId> { internalFinish }

    function GetShaderProgram(): Option<ShaderProgramId> reads this { program }
    function GetName(): string reads this { name }
    function GetExecutionType(): ExecutionType reads this { executionType }
    function GetExecuted(): bool reads this { executed }

    method SetExecutionType(exType: ExecutionType)
      modifies this`executionType
      ensures GetExecutionType() == exType
      ensures GetExecuted() == old(GetExecuted())
      ensures GetShaderProgram() == old(GetShaderProgram()) && GetName() == old(GetName())
    {
      executionType := exType;
    }

    method SetExecuted(b: bool)
      modifies this`executed
      ensures GetExecuted() == b
      ensures GetExecutionType() == old(GetExecutionType())
      ensures GetShaderProgram() == old(GetShaderProgram()) && GetName() == old(GetName())
    {
      executed := b;
    }
  }

  class FrameBufferStage {
    var frameBuffer: Option<FrameBufferId>
    const startupOperations: Vector<OperationId>
    const finishOperations: Vector<OperationId>
    const internalStartup: Vector<OperationId>
    const internalFinish: Vector<OperationId>
    const programPasses: Vector<ShaderProgramPass>
    var id: nat
    var activeBuffers: seq<uint32>
    var executionType: ExecutionType
    var executed: bool

    /** The operation lists are four separate vectors. */
    ghost predicate Valid()
      reads this
    {
      startupOperations != finishOperations && startupOperations != internalStartup &&
      startupOperations != internalFinish && finishOperations != internalStartup &&
      finishOperations != internalFinish && internalStartup != internalFinish
    }

    /** The stage, its lists, and every part of the passes it holds: what
        running its operations may touch. */
    ghost function Parts(): set<object>
      reads programPasses
    {
      {this, startupOperations, finishOperations, internalStartup, internalFinish, programPasses} +
      set p, o | p in programPasses.elems && o in p.Parts() :: o
    }

    /** The constructor's body is not part of this model: this one only
        provides empty, separate lists, and fixes neither the framebuffer nor
        the attachments. */
    constructor ()
      ensures Valid()
      ensures fresh(startupOperations) && fresh(finishOperations) && fresh(internalStartup)
      ensures fresh(internalFinish) && fresh(programPasses)
      ensures startupOperations.elems == [] && finishOperations.elems == []
      ensures internalStartup.elems == [] && internalFinish.elems == [] && programPasses.elems == []
    {
      frameBuffer := None;
      activeBuffers := [];
      startupOperations := new Vector();
      finishOperations := new Vector();
      internalStartup := new Vector();
      internalFinish := new Vector();
      programPasses := new Vector();
    }

    /** getShaderProgramPasses: the live vector. */
    function GetShaderProgramPasses(): Vector<ShaderProgramPass> { programPasses }
    /** getStartupOperations: the live vector. */
    function GetStartupOperations(): Vector<OperationId> { startupOperations }
    /** getFinishOperations: the live vector. */
    function GetFinishOperations(): Vector<OperationId> { finishOperations }
    /** getInternalStartupOperations: the live vector. */
    function GetInternalStartupOperations(): Vector<OperationId> { internalStartup }
    /** getInternalFinishOperations: the live vector. */
    function GetInternalFinishOperations(): Vector<OperationId> { internalFinish }
    function GetFrameBuffer(): Option<FrameBufferId> reads this { frameBuffer }
    /** getActiveAttachments: a read-only view, so a value. */
    function GetActiveAttachments(): seq<uint32> reads this { activeBuffers }

    function GetExecutionType(): ExecutionType reads this { executionType }
    function GetExecuted(): bool reads this { executed }

    method SetExecutionType(exType: ExecutionType)
      modifies this`executionType
      ensures GetExecutionType() == exType
      ensures GetExecuted() == old(GetExecuted())
      ensures GetFrameBuffer() == old(GetFrameBuffer()) && GetActiveAttachments() == old(GetActiveAttachments())
    {
      executionType := exType;
    }

    method SetExecuted(b: bool)
      modifies this`executed
      ensures GetExecuted() == b
      ensures GetExecutionType() == old(GetExecutionType())
      ensures GetFrameBuffer() == old(GetFrameBuffer()) && GetActiveAttachments() == old(GetActiveAttachments())
    {
      executed := b;
    }
  }

  /** An edit made through getStartupOperations() is an edit of the stage's
      startup list, and of no other list of the stage. */
  method AppendStageStartupOperation(stage: FrameBufferStage, op: OperationId)
    requires stage.Valid()
    modifies stage.startupOperations
    ensures stage.startupOperations.elems == old(stage.startupOperations.elems) + [op]
    ensures stage.finishOperations.elems == old(stage.finishOperations.elems)
    ensures stage.internalStartup.elems == old(stage.internalStartup.elems)
    ensures stage.internalFinish.elems == old(stage.internalFinish.elems)
    ensures stage.programPasses.elems == old(stage.programPasses.elems)
  {
    var ops := stage.GetStartupOperations();
    ops.PushBack(op);
  }

  /** An edit made through getFinishOperations() changes the finish list only. */
  method EraseStageFinishOperation(stage: FrameBufferStage, i: nat)
    requires stage.Valid() && i < |stage.finishOperations.elems|
    modifies stage.finishOperations
    ensures stage.finishOperations.elems
         == old(stage.finishOperations.elems)[..i] + old(stage.finishOperations.elems)[i + 1..]
    ensures stage.startupOperations.elems == old(stage.startupOperations.elems)
    ensures stage.internalStartup.elems == old(stage.internalStartup.elems)
    ensures stage.internalFinish.elems == old(stage.internalFinish.elems)
    ensures stage.programPasses.elems == old(stage.programPasses.elems)
  {
    var ops := stage.GetFinishOperations();
    ops.Erase(i);
  }

  /** An edit made through getShaderProgramPasses() changes the pass list
      and leaves every operation list of the stage as it was. */
  method AddStageProgramPass(stage: FrameBufferStage, pass: ShaderProgramPass)
    modifies stage.programPasses
    ensures stage.programPasses.elems == old(stage.programPasses.elems) + [pass]
    ensures stage.startupOperations.elems == old(stage.startupOperations.elems)
    ensures stage.finishOperations.elems == old(stage.finishOperations.elems)
    ensures stage.internalStartup.elems == old(stage.internalStartup.elems)
    ensures stage.internalFinish.elems == old(stage.internalFinish.elems)
  {
    var passes := stage.GetShaderProgramPasses();
    passes.PushBack(pass);
  }

  /** An edit made through getNodePasses() changes that pass's node-pass
      list and none of its operation lists. */
  method AddPassNodePass(pass: ShaderProgramPass, node: NodePassId)
    requires pass.Valid()
    modifies pass.nodePasses
    ensures pass.nodePasses.elems == old(pass.nodePasses.elems) + [node]
    ensures pass.startupOperations.elems == old(pass.startupOperations.elems)
    ensures pass.finishOperations.elems == old(pass.finishOperations.elems)
    ensures pass.internalStartup.elems == old(pass.internalStartup.elems)
    ensures pass.internalFinish.elems == old(pass.internalFinish.elems)
  {
    var nodes := pass.GetNodePasses();
    nodes.PushBack(node);
  }

  /** An edit made through a pass's getInternalStartupOperations() changes
      that list only. */
  method AppendPassInternalStartup(pass: ShaderProgramPass, op: OperationId)
    requires pass.Valid()
    modifies pass.internalStartup
    ensures pass.internalStartup.elems == old(pass.internalStartup.elems) + [op]
    ensures pass.startupOperations.elems == old(pass.startupOperations.elems)
    ensures pass.finishOperations.elems == old(pass.finishOperations.elems)
    ensures pass.internalFinish.elems == old(pass.internalFinish.elems)
    ensures pass.nodePasses.elems == old(pass.nodePasses.elems)
  {
    var ops := pass.GetInternalStartupOperations();
    ops.PushBack(op);
  }
}
