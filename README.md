# KoRE render core, modelled in Dafny

KoRE is a real-time OpenGL rendering framework. Its core runs a render
graph: framebuffer stages hold shader-program passes, passes hold node
passes, and every level holds lists of operations. Each frame an optimizer
flattens the graph into one operation list, and that list is executed in
order. The operations change device state only through the
`RenderManager`. The manager keeps a shadow of the device state, so a
request to bind what is already bound never reaches the device.

The project models this core:

- `render_manager.dfy` (module `Render`) is the `RenderManager` class. It
  covers the scalar, table and framebuffer caches and the two GL-token →
  index tables. Every GL wrapper appends its device calls to a ghost log
  `calls`. The class also holds the stage list and `renderFrame` /
  `onRemoveComponent` over the flattened operation list.
  `scenarios.dfy` (module `RenderScenarios`) chains wrapper calls: a repeat
  is free, and a framebuffer switch makes the next program selection reach
  the device again.
- `timing.dfy` (module `Timing`) is the `GPUtimer`. It holds the pending
  query list, the resolved timestamps, the query names and the
  start → end pairing of duration queries.
- `shaders.dfy` (module `Shaders`) is the `#include` expansion loop of
  `Shader::loadShaderCode`. It also covers joining the lines into the
  shader source, taking the shader's name from its path, and the
  create/compile/delete device calls.
- `image_texture.dfy` (module `ImageTexture`) is the `BindImageTexture`
  operation, plus its internal-format → image-format mapping. The image
  formats are those of image load/store in section 8.26 of the OpenGL 4.6
  core profile specification.
- `passes.dfy` (module `Passes`) gives the shape of `FrameBufferStage` and
  `ShaderProgramPass`: their separate lists, the live-vector getters and
  the execution setters.
- `textures_component.dfy` (module `Components`) has the const accessors
  of `TexturesComponent`.
- `gl.dfy` (the GL integer widths, the `double` round trip of a GLuint64,
  tokens and device-call events),
  `sequences.dfy` (`std::find`, erase-at-found, `iter_swap` and filtering,
  stated over sequences) and `vector.dfy` (a `std::vector` handed out by
  reference) are shared vocabulary.

GL token values are those of the OpenGL API headers.
`KORE_GLUINT_HANDLE_INVALID` is taken to be `0xFFFFFFFF`, because
`KoRE/Common.h` is not part of this model. Device queries enter as
parameters:

- the compile status;
- query availability and results;
- the id `glGenQueries` yields;
- the handle `glCreateShader` yields.

The optimizer's rebuild of the operation list and `Operation::dependsOn`
are also parameters, because their bodies are not part of this model.

## Model

| member | source | states |
|---|---|---|
| GL.AddWrap32 | src/KoRE/RenderManager.cpp:227-232 | `GL_TEXTURE0 + index` is GLenum addition: exact below 2^32, and wraps by 2^32 above it |
| GL.SubWrap64 | src/KoRE/GPUtimer.cpp:142-143 | the GLuint64 difference of two timestamps: exact when end ≥ start, wrapped by 2^64 otherwise |
| GL.NearestDoubleError | src/KoRE/GPUtimer.cpp:142-143 | converting an integer to `double` is exact below 2^53; above, the nearest double (ties to even) is at most half a unit in the last place away |
| GL.DoubleRoundTrip | src/KoRE/GPUtimer.cpp:142-143 | a GLuint64 sent through `double` and back is unchanged below 2^53, is the nearest double when that fits in 64 bits, and is always within half a unit in the last place |
| GL.DoubleRoundTripExamples | src/KoRE/GPUtimer.cpp:142-143 | 2^53 + 1 comes back as 2^53 (a tie, to even), while 2^53 + 3 and 2^53 + 4 come back as 2^53 + 4 |
| GL.AsGLint | src/KoRE/Operations/BindOperations/BindImageTexture.cpp:74 | a GLuint passed as GLint keeps its value below 2^31; otherwise it is the two's-complement value, congruent mod 2^32 |
| Sequences.IndexOf | src/KoRE/RenderManager.cpp:265-268 | `std::find`: the result is the first position holding x, or the length when x is absent |
| Sequences.RemoveFirstPresent | src/KoRE/RenderManager.cpp:330-337 | erasing the found element keeps every other element in its order and takes exactly one x out of the multiset |
| Sequences.RemoveFirstAbsent | src/KoRE/RenderManager.cpp:334 | when the element is absent, the list is unchanged |
| Sequences.SwapFirstPositions | src/KoRE/RenderManager.cpp:263-272 | when both are found, their first positions are exchanged and every other position is unchanged |
| Sequences.SwapFirstAbsent | src/KoRE/RenderManager.cpp:269 | when either element is missing, the swap is a no-op |
| Sequences.SwapFirstMultiset | src/KoRE/RenderManager.cpp:263-272 | the swap never changes the multiset of stages |
| Sequences.FilterConcat | src/KoRE/GPUtimer.cpp:64-72 | filtering distributes over concatenation, so it is order-preserving (used by the loops that build filtered lists) |
| Render.TextureTargetTable | src/KoRE/RenderManager.h:47-61 | the 11 texture tokens are distinct, each maps to its enumerator 0..10, the table holds nothing else, and its size equals `NUM_TEXTURE_TARGETS` (so the size check at RenderManager.cpp:73 passes) |
| Render.BufferTargetTable | src/KoRE/RenderManager.h:65-81 | the 13 buffer tokens are distinct, each maps to its enumerator 0..12, and the table size equals `NUM_BUFFER_TARGETS` (the check at RenderManager.cpp:78 passes) |
| Render.TexSlot | src/KoRE/RenderManager.cpp:203 | the column bindTexture uses is always in range; an unknown target gets the inserted 0 and so aliases the TEXTURE_1D column |
| Render.RenderManager.constructor | src/KoRE/RenderManager.cpp:33-101 | the initial state: no optimizer, colour mask all true, VBO/VAO/IBO 0, zero viewport and screen resolution, unit 0, program invalid, both token tables as listed, every cache table 0, profiling flag unset, nothing sent to the device |
| Render.RenderManager.SetViewport | src/KoRE/RenderManager.cpp:117-133 | afterwards getViewport() is the new viewport and getRenderResolution() its width and height; one glViewport is issued iff it differed from the cached one |
| Render.RenderManager.SetScreenResolution | src/KoRE/RenderManager.h:97-107 | getScreenResolution returns the new value; the viewport and getRenderResolution are untouched |
| Render.RenderManager.SetUseGPUprofiling | src/KoRE/RenderManager.h:168-174 | getUseGPUpfofiling returns the value set; reading the flag requires a prior set, because the constructor never initializes it |
| Render.RenderManager.SetOptimizer | src/KoRE/RenderManager.cpp:155-160 | the given optimizer, or NULL (None), becomes the installed one |
| Render.RenderManager.RenderFrame | src/KoRE/RenderManager.cpp:135-147 | installs a SimpleOptimizer when none is set, replaces the operation list by the optimizer's rebuild, then executes every listed operation exactly once, in list order; the rebuild sees the stages as they were when the frame began. The caches, the device log, the stage list and every stage and pass (lists and run-once flags) are left open, since what each execute() does is not modelled |
| Render.RenderManager.OnRemoveComponent | src/KoRE/RenderManager.cpp:163-169 | the operation list becomes exactly the operations not depending on the component, in their old order (intended semantics) |
| Render.OnRemoveComponentAsWrittenDefined | src/KoRE/RenderManager.cpp:163-169 | the loop as written is defined exactly when no operation depends on the component, and then removes nothing |
| Render.OnRemoveComponentExample | src/KoRE/RenderManager.cpp:164-167 | operations [7, 8] with only 7 dependent: as written the loop is undefined, while the intended removal leaves [8] |
| Render.RenderManager.BindVBO | src/KoRE/RenderManager.cpp:172-177 | the VBO cache holds the handle; one glBindBuffer(GL_ARRAY_BUFFER) is issued iff it differed; `boundBuffers` is outside its frame |
| Render.RenderManager.BindVAO | src/KoRE/RenderManager.cpp:179-184 | the VAO cache holds the handle; one glBindVertexArray is issued iff it differed |
| Render.RenderManager.BindIBO | src/KoRE/RenderManager.cpp:186-191 | the IBO cache holds the handle; one glBindBuffer(GL_ELEMENT_ARRAY_BUFFER) is issued iff it differed; `boundBuffers` is untouched |
| Render.RenderManager.UseShaderProgram | src/KoRE/RenderManager.cpp:193-198 | the program cache holds the program; one glUseProgram is issued iff it differed |
| Render.RenderManager.BindTextureAt | src/KoRE/RenderManager.cpp:200-209 | when the cached entry differs: selects the unit (issued only if not already active), then one glBindTexture, then stores the handle. Otherwise no call and no unit change. Every other entry is unchanged, and an unknown target joins the token table with column 0 |
| Render.RenderManager.BindTexture | src/KoRE/RenderManager.cpp:211-214 | the same on the currently active unit, which stays active; at most one glBindTexture is issued |
| Render.RenderManager.BindSampler | src/KoRE/RenderManager.cpp:216-225 | always issues glBindSampler, after selecting the unit; no sampler cache is consulted or changed |
| Render.RenderManager.ActiveTexture | src/KoRE/RenderManager.cpp:227-232 | the active unit becomes the index; one glActiveTexture(GL_TEXTURE0 + index) is issued iff it differed |
| Render.RenderManager.BindFrameBuffer | src/KoRE/RenderManager.cpp:234-257 | as written. A GL_FRAMEBUFFER bind with a handle differing from either slot sets both slots, issues one call and invalidates the program cache. Read-only and draw-only targets change nothing and issue nothing. With both slots already equal, the only call is the draw re-bind taken when the handle's value is the token GL_DRAW_FRAMEBUFFER |
| Render.RenderManager.BindFrameBufferIntended | src/KoRE/RenderManager.cpp:234-257 | corrected: each target updates only its own slots and issues one call iff a slot it covers differs (invalidating the program cache); other targets change nothing |
| Render.RenderManager.AddFramebufferStage | src/KoRE/RenderManager.cpp:259-261 | the stage is appended |
| Render.RenderManager.SwapFramebufferStage | src/KoRE/RenderManager.cpp:263-272 | the stage list becomes the first-occurrence swap (see the Sequences rows for its properties) |
| Render.RenderManager.RemoveFrameBufferStage | src/KoRE/RenderManager.cpp:330-337 | the stage list loses the first occurrence of the stage only; it is unchanged when the stage is absent |
| Render.RenderManager.BindBuffer | src/KoRE/RenderManager.cpp:339-353 | an unknown target changes no cache and issues nothing. A known target updates only its own slot, issuing one glBindBuffer iff the slot differed |
| Render.RenderManager.BindBufferBase | src/KoRE/RenderManager.cpp:355-376 | acts only for GL_ATOMIC_COUNTER_BUFFER with a binding point below the bound: the slot holds the handle, one glBindBufferBase is issued iff it differed, and other slots are unchanged. Any other target or point changes nothing and issues nothing |
| Render.RenderManager.SetColorMask | src/KoRE/RenderManager.cpp:378-391 | the mask cache holds the four flags; one glColorMask is issued iff the mask differed |
| Render.RenderManager.SetGLcapability | src/KoRE/RenderManager.cpp:393-404 | always queries glIsEnabled and then always issues glEnable or glDisable; no cache is changed |
| RenderScenarios.RepeatScalarBinds | src/KoRE/RenderManager.cpp:172-198 | the same VBO, program and viewport requested twice reach the device once each, and only if they differed from the cache |
| RenderScenarios.RepeatTextureBind | src/KoRE/RenderManager.cpp:200-209 | a second identical bindTexture(unit, target, handle) issues nothing |
| RenderScenarios.FramebufferSwitchForgetsProgram | src/KoRE/RenderManager.cpp:234-246 | after FBO A, program P, FBO B (B ≠ A), the device log ends with the bind of B followed by a fresh glUseProgram(P) |
| RenderScenarios.SplitTargetsIgnored | src/KoRE/RenderManager.cpp:234-257 | read-only and draw-only framebuffer binds leave the slots, the program cache and the device log unchanged |
| RenderScenarios.AddStageThroughGetter | src/KoRE/RenderManager.h:109-110 | a push_back through getFrameBufferStages appends to the manager's own stage list |
| RenderScenarios.ClearedOptimizerReplaced | src/KoRE/RenderManager.cpp:135-160 | after setOptimizer(NULL), the next renderFrame installs a SimpleOptimizer and rebuilds the operation list with it |
| Timing.GPUtimer.constructor | src/KoRE/GPUtimer.cpp:39-41 | no pending queries; all three tables empty |
| Timing.GPUtimer.Dispose | src/KoRE/GPUtimer.cpp:43-49 | one glDeleteQueries per pending query, in pending order |
| Timing.GPUtimer.QueryTimestamp | src/KoRE/GPUtimer.cpp:51-59 | a new id is appended to pending, its name recorded and its counter issued. A repeat while pending changes nothing. Pending stays duplicate-free |
| Timing.NameOfIssuedQuery | src/KoRE/GPUtimer.cpp:96-98 | after a new query is issued under a name, getQueryName of its id returns that name |
| Timing.GPUtimer.FinishedQueries | src/KoRE/GPUtimer.cpp:61-72 | the finished list is exactly the pending ids reported available, in pending order |
| Timing.GPUtimer.CheckQueryResults | src/KoRE/GPUtimer.cpp:61-94 | exactly the available pending ids leave the pending list and enter the timestamp table with the device's result. Afterwards isTimestampAvailable holds of an id iff it held before or the id was reported available; getQueryResult of each newly resolved id is the device's result, and of every other id what it returned before |
| Timing.IssueThenResolve | src/KoRE/GPUtimer.cpp:184-187 | an issued query becomes available at the next checkQueryResults iff the device reports it finished, and getQueryResult then returns the device's result |
| Timing.CheckKeepsOrder | src/KoRE/GPUtimer.cpp:74-84 | the ids still pending afterwards are the old pending list filtered by "not available", hence in their relative order |
| Timing.GPUtimer.RemoveQueryResult | src/KoRE/GPUtimer.cpp:100-107 | requires the id in all three tables (each `erase(find(id))`); deletes the query and drops the id from exactly those tables, never touching pending; afterwards isTimestampAvailable is false and getQueryResult gives the sentinel |
| Timing.GPUtimer.StartDurationQuery | src/KoRE/GPUtimer.cpp:110-112 | behaves as queryTimestamp |
| Timing.GPUtimer.EndDurationQuery | src/KoRE/GPUtimer.cpp:114-127 | generates an end query only when the start has no pairing yet, otherwise reuses the paired one; records the pairing and timestamps the end query like queryTimestamp with an empty name |
| Timing.EndQueryReused | src/KoRE/GPUtimer.cpp:114-127 | after one endDurationQuery, a second for the same start yields the same end id, whatever id the device would generate |
| Timing.GPUtimer.GetDurationMS | src/KoRE/GPUtimer.cpp:129-149 | the sentinel when there is no pairing or either timestamp is unresolved. Otherwise the wrapped difference end − start after the `double` round trip: exactly end − start when end ≥ start and the difference is below 2^53, and always within half a unit in the last place of the wrapped difference |
| Timing.GPUtimer.GetDurationResultsMS | src/KoRE/GPUtimer.cpp:151-166 | a fresh list with one entry (duration, start name, start id) per duration query whose duration is not the sentinel, nothing else, in ascending start-id order |
| Timing.GPUtimer.RemoveDurationQuery | src/KoRE/GPUtimer.cpp:168-181 | corrected: a no-op without a pairing; otherwise deletes both queries and drops both ids from the name, timestamp and pairing tables |
| Timing.RemoveDurationQueryAsWritten | src/KoRE/GPUtimer.cpp:168-181 | as written: a start id without a pairing leaves all tables as they were |
| Timing.RemoveDurationQueryAlwaysUndefined | src/KoRE/GPUtimer.cpp:178-180 | whenever a pairing exists, the as-written removal reaches undefined behaviour |
| Timing.RemoveDurationQueryExample | src/KoRE/GPUtimer.cpp:178-180 | the concrete pair 1 → 2, with both names and timestamps present, is undefined |
| Shaders.Contains | src/KoRE/Shader.cpp:78-79 | `find(pat) != npos` iff pat occurs at some position |
| Shaders.LastIndexOf | src/KoRE/Shader.cpp:81 | `find_last_of`: absent iff the character does not occur, else its last position |
| Shaders.IncludeName | src/KoRE/Shader.cpp:88-100 | a directive is accepted iff the line holds `#include` and a quote, with its last quote after its first; the name is exactly the text strictly between them |
| Shaders.FirstIncludeLine | src/KoRE/Shader.cpp:76-86 | the first line containing `#include`, and no earlier line does |
| Shaders.FindIncludeLine | src/KoRE/Shader.cpp:74-86 | the search loop stops at exactly that first line |
| Shaders.StepShape | src/KoRE/Shader.cpp:100-113 | an accepted pass keeps the lines before the directive, inserts the included lines next, then the cleared directive line `""`, then the later lines in order; the count grows by the included count |
| Shaders.StepStopsAtMalformed | src/KoRE/Shader.cpp:88-96 | a malformed first `#include` line ends the loop even when later lines hold valid directives |
| Shaders.StepUnreadable | src/KoRE/Shader.cpp:106-113 | an unreadable included file still clears the directive line and inserts nothing, and the loop continues |
| Shaders.StepWeight | src/KoRE/Shader.cpp:72-122 | with acyclic includes, each accepted pass lowers the number of directives still to expand by exactly one, so the loop ends |
| Shaders.ExpandDirective | src/KoRE/Shader.cpp:98-114 | clearing the line at the found index and inserting before it is exactly one accepted pass |
| Shaders.ExpandIncludes | src/KoRE/Shader.cpp:72-122 | the do-while ends with the fully expanded lines; then no line has `#include`, or the first one that does is malformed; and the code is those lines joined |
| Shaders.ExpandedIsFinal | src/KoRE/Shader.cpp:88-96 | the expanded lines admit no further pass |
| Shaders.BuildCode | src/KoRE/Shader.cpp:117-120 | the source is every line followed by `"\n"` |
| Shaders.SplitJoin | src/KoRE/Shader.cpp:117-120 | joining loses no information: lines without a newline are recovered from the source |
| Shaders.BaseName | src/KoRE/Shader.cpp:135 | the suffix after the last `/`, or the whole path when it has none; it contains no `/` |
| Shaders.Shader.constructor | src/KoRE/Shader.cpp:30-34 | handle and shader type invalid, code empty |
| Shaders.Shader.LoadShaderCode | src/KoRE/Shader.cpp:59-135 | issues create, source (the expanded file joined), compile, and a delete when compilation fails; stores the handle and type; the name is the path's basename |
| ImageTexture.FromToken | src/KoRE/Operations/BindOperations/BindImageTexture.cpp:104-147 | a token decodes to the catch-all `Other` exactly when it is none of the 29 named format tokens |
| ImageTexture.DecodeEncode | src/KoRE/Operations/BindOperations/BindImageTexture.cpp:104-147 | decoding any format token and encoding it again gives the token back |
| ImageTexture.EncodeDecode | src/KoRE/Operations/BindOperations/BindImageTexture.cpp:104-147 | a canonical format survives encoding and decoding |
| ImageTexture.ThreeComponentToken | src/KoRE/Operations/BindOperations/BindImageTexture.cpp:105-140 | a canonical format's token is one of the 17 case labels iff the format has three components |
| ImageTexture.ToImageFormat | src/KoRE/Operations/BindOperations/BindImageTexture.cpp:104-147 | exactly the 3-component formats change. Each becomes a 4-component format with channels at least as wide, of the same number type except R11F_G11F_B10F → RGBA16. No result is 3-component |
| ImageTexture.InternalFormatToImageFormat | src/KoRE/Operations/BindOperations/BindImageTexture.cpp:98-149 | on raw tokens, the format changes iff it is one of the 17 case labels, and the result is never a case label |
| ImageTexture.ImageFormatIdempotent | src/KoRE/Operations/BindOperations/BindImageTexture.cpp:104-148 | applying the mapping twice equals applying it once |
| ImageTexture.ImageFormatExamples | src/KoRE/Operations/BindOperations/BindImageTexture.cpp:108-123 | RGB8 → RGBA8, R11F_G11F_B10F → RGBA16, RGB10 → RGBA12, and an unlisted RGBA32F stays |
| ImageTexture.BindImageTexture.constructor | src/KoRE/Operations/BindOperations/BindImageTexture.cpp:24-37 | the type tag is OP_BINDIMAGETEXTURE and the operation is invalid |
| ImageTexture.BindImageTexture.Connected | src/KoRE/Operations/BindOperations/BindImageTexture.cpp:28-33 | the type tag is OP_BINDIMAGETEXTURE and the operation is connected as connect() does |
| ImageTexture.BindImageTexture.Connect | src/KoRE/Operations/BindOperations/BindImageTexture.cpp:57-68 | a missing argument clears both uniforms and keeps the access mode; otherwise access, texture data and shader input are stored; valid iff both were given |
| ImageTexture.BindImageTexture.Destroy | src/KoRE/Operations/BindOperations/BindImageTexture.cpp:39-54 | no device call when invalid; otherwise one glBindImageTexture of texture 0, read-write, on the uniform's image unit |
| ImageTexture.BindImageTexture.DoExecute | src/KoRE/Operations/BindOperations/BindImageTexture.cpp:70-87 | in order: the manager's cached useShaderProgram, glUniform1i(location, image unit), then glBindImageTexture with the stored access and the unconverted internal format |
| Passes.ShaderProgramPass.constructor | src/KoRE/Passes/ShaderProgramPass.h:72-76 | the four operation lists and the node-pass list are five separate, empty vectors |
| Passes.ShaderProgramPass.SetExecutionType | src/KoRE/Passes/ShaderProgramPass.h:61-62 | getExecutionType returns the new type; executed, program and name are unchanged, and no list is in the frame |
| Passes.ShaderProgramPass.SetExecuted | src/KoRE/Passes/ShaderProgramPass.h:63-64 | getExecuted returns the flag; execution type, program and name are unchanged, and no list is in the frame |
| Passes.FrameBufferStage.constructor | src/KoRE/Passes/FrameBufferStage.h:71-78 | the four operation lists and the program-pass list are separate, empty vectors |
| Passes.FrameBufferStage.SetExecutionType | src/KoRE/Passes/FrameBufferStage.h:65-66 | getExecutionType returns the new type; executed, framebuffer and attachments are unchanged, and no list is in the frame |
| Passes.FrameBufferStage.SetExecuted | src/KoRE/Passes/FrameBufferStage.h:67-68 | getExecuted returns the flag; execution type, framebuffer and attachments are unchanged, and no list is in the frame |
| Passes.AppendStageStartupOperation | src/KoRE/Passes/FrameBufferStage.h:37-38 | a push_back through getStartupOperations changes the stage's startup list and no other list of the stage |
| Passes.EraseStageFinishOperation | src/KoRE/Passes/FrameBufferStage.h:39-40 | an erase through getFinishOperations changes the finish list only |
| Passes.AddStageProgramPass | src/KoRE/Passes/FrameBufferStage.h:34-35 | a push_back through getShaderProgramPasses changes the pass list and no operation list |
| Passes.AddPassNodePass | src/KoRE/Passes/ShaderProgramPass.h:35-36 | a push_back through getNodePasses changes the node-pass list and no operation list |
| Passes.AppendPassInternalStartup | src/KoRE/Passes/ShaderProgramPass.h:42-43 | a push_back through getInternalStartupOperations changes that list only |
| Components.TexturesComponent.GetNumTextures | src/KoRE/Components/TexturesComponent.h:35 | the list length, truncated to 32-bit `uint`; exact below 2^32 |
| Components.TexturesComponent.GetTexture | src/KoRE/Components/TexturesComponent.h:37-38 | NULL (None) iff idx ≥ the length, otherwise the texture at idx |
| Components.TexturesComponent.GetTextures | src/KoRE/Components/TexturesComponent.h:40-45 | exactly the textures carrying the semantic, possibly none |
| Components.CountMatchesLookup | src/KoRE/Components/TexturesComponent.h:35-38 | below 2^32 entries, getTexture(idx) finds a texture iff idx < getNumTextures() |
| Components.LookupInSemanticList | src/KoRE/Components/TexturesComponent.h:37-45 | the texture at any valid index is among the textures of its own semantic |
| Components.SemanticListsPartition | src/KoRE/Components/TexturesComponent.h:40-45 | the lists of two different semantics are disjoint, and together they cover every texture |

## Left out

- Raw OpenGL calls are foreign calls. They appear only as `DeviceCall` events in ghost logs, or as oracle parameters: the compile status, query availability and results, and the ids the device generates.
- `Shader::readTextFileLines` (file I/O) is replaced by a map from file name to lines; an absent name is a failed read. TextureLoader is file loading and image decoding; it is not part of this model.
- `Log::write` is a side channel and is omitted. So is the `GLerror::gl_ErrorCheckStart` / `gl_ErrorCheckFinish` bracket around the device calls in `BindImageTexture::doExecute`, which only reads and reports the GL error state. The `getInstance` singletons are explicitly constructed objects.
- `Optimizer::optimize`, `SimpleOptimizer` and the `Operation` base (`execute`, `dependsOn`, `isValid`) have no bodies here. The rebuild is an oracle, `execute` is recorded in the ghost `executed` log, and nothing is claimed about flattening order or run-once skipping.
- The bodies of `addProgramPass`, `swapPasses`, `addNodePass`, `addTexture`, and of the pass and stage destructors are not shown, so no behaviour is claimed for them.
- Passes.ShaderProgramPass.constructor and Passes.FrameBufferStage.constructor: their bodies are not shown. The model claims only that the lists start as separate, empty vectors, as the member declarations imply; the program, name, framebuffer, attachments and execution state they set are left open.
- The commented-out `removeOperation` / `removeShaderProgramPass` / `removeNodePass` and the commented-out sampler cache are dead code and are not modelled.
- Render.RenderManager.SetOptimizer: the source deletes the installed optimizer first, so passing the installed one leaves a dangling pointer. The model stores the new optimizer (or NULL) only.
- Render.RenderManager.RenderFrame: what `Optimizer::optimize` and each `Operation::execute` do to the manager and the render graph is not modelled. That covers the manager's caches (such as the program bound by `useShaderProgram`), its device calls, the stage list, and each stage's and pass's lists and run-once `executed` flag. The contract leaves all of these unconstrained. It states only the optimizer, the rebuilt list and the order of execution.
- Render.RenderManager.BindTextureAt: it requires the unit to be below the cache's `GL_MAX_COMBINED_TEXTURE_IMAGE_UNITS` rows. The source indexes `_boundTextures[unit]` unchecked, which is undefined behaviour past the last row. Render.RenderManager.BindTexture requires the same of the active unit.
- Render.RenderManager.constructor: the memset of `_boundAtomicBuffers` uses `GL_MAX_COMBINED_ATOMIC_COUNTERS` rather than the array's size, which overruns the array. The `_drawBuffers` memset is not modelled, because no member reads that table. The final `activeTexture(0)` finds the unit already 0 and issues nothing, so it is not spelled out.
- Render.RenderManager.OnRemoveComponent: the source increments the iterator it just erased, which is undefined behaviour (see Findings). The method states the intended removal, and Render.OnRemoveComponentAsWritten models the loop as written.
- `KORE_SAFE_DELETE`, destructors of the manager and the passes, and memory ownership are not modelled.
- Timing.GPUtimer.GetDurationMS: a wrapped difference within 2^10 of 2^64 rounds to the double 2^64, whose conversion back to GLuint64 is undefined behaviour; the model returns 2^64 − 1 for it.
- Timing.GPUtimer.GetDurationResultsMS: it requires a name for every reportable start id, since `getQueryName` dereferences `find()`.
- `Shader::checkShaderCompileStatus` (reading the info log) is an oracle boolean. `ResourceManager::addShader` is not part of this model, and the `_code` field, which `loadShaderCode` never assigns, stays `""`.
- Shaders.ExpandIncludes: a file that includes itself makes the source loop forever. The model requires an acyclic rank on the files that can be read.
- Shaders.ExpandIncludes: the `int` positions in the include loop are taken to fit in 31 bits.
- ImageTexture.BindImageTexture.constructor: the `BindOperation` base is taken to start with both uniforms null, and `Operation::isValid` is taken to hold exactly when both uniforms are set. Neither body is part of this model.
- `BindImageTexture::update` and `reset` are empty and are not modelled.
- `resolutionChanged` is empty, and `_shdScreenRes` / `ShaderData` is pointer plumbing; neither is modelled.
- Components.TexturesComponent.GetTextures: its body is not shown. The model follows the doc comment and returns the matches in list order.

## Findings

| source | as written | input that shows it | evidently intended | confidence | as-written member | corrected member |
|---|---|---|---|---|---|---|
| src/KoRE/RenderManager.cpp:234-257 | the `GL_READ_FRAMEBUFFER` and draw branches are `else if`s nested inside `fboTarget == GL_FRAMEBUFFER`, and the draw branch tests `fboHandle` against the token `GL_DRAW_FRAMEBUFFER` | `bindFrameBuffer(GL_READ_FRAMEBUFFER, 5)` changes nothing and issues nothing (RenderScenarios.SplitTargetsIgnored) | read-only and draw-only binds update their own slot and issue one call when it differs | medium, not executed | Render.RenderManager.BindFrameBuffer | Render.RenderManager.BindFrameBufferIntended |
| src/KoRE/RenderManager.cpp:163-169 | after `_operations.erase(iter)` the loop's `++iter` advances the iterator that the erase invalidated (Render.OnRemoveComponentAsWrittenDefined) | operations [7, 8] with only 7 depending on the removed component (Render.OnRemoveComponentExample) | remove every operation that depends on the component and keep the others in order | high, not executed | Render.OnRemoveComponentAsWritten | Render.RenderManager.OnRemoveComponent |
| src/KoRE/GPUtimer.cpp:168-181 | `removeQueryResult(startQueryID)` erases the pairing entry `iter` points to; `removeQueryResult(endQueryID)` then erases `find(endQueryID)` from the pairing table, where the end id is not a key; finally `erase(iter)` re-erases the invalidated iterator | names {1:"a", 2:""}, timestamps {1:10, 2:25}, pairing {1→2}, `removeDurationQuery(1)` (Timing.RemoveDurationQueryExample) | delete both queries and forget both ids in every table | high, not executed | Timing.RemoveDurationQueryAsWritten | Timing.GPUtimer.RemoveDurationQuery |
