/** The bind-image-texture operation: it connects a texture (a shader data
    source) to an image-unit uniform of a shader program, binds it when
    executed and unbinds it when torn down.  It also carries the mapping from
    a texture's internal format to a format an image unit accepts: image
    load/store (section 8.26 of the OpenGL 4.6 core profile specification)
    admits only 1-, 2- and 4-component image formats, so the 3-component
    formats are widened to a 4-component one. */
module ImageTexture {
  import opened GL
  import opened Wrappers
  import Render

  // Internal-format tokens of the OpenGL API headers.
  const GL_RGB: uint32 := 0x1907
  const GL_RGB4: uint32 := 0x804F
  const GL_RGB5: uint32 := 0x8050
  const GL_RGB8: uint32 := 0x8051
  const GL_RGB10: uint32 := 0x8052
  const GL_RGB12: uint32 := 0x8053
  const GL_RGB16: uint32 := 0x8054
  const GL_RGBA8: uint32 := 0x8058
  const GL_RGBA12: uint32 := 0x805A
  const GL_RGBA16: uint32 := 0x805B
  const GL_RGB8_SNORM: uint32 := 0x8F96
  const GL_RGBA8_SNORM: uint32 := 0x8F97
  const GL_RGB16_SNORM: uint32 := 0x8F9A
  const GL_RGBA16_SNORM: uint32 := 0x8F9B
  const GL_R11F_G11F_B10F: uint32 := 0x8C3A
  const GL_RGBA32F: uint32 := 0x8814
  const GL_RGB32F: uint32 := 0x8815
  const GL_RGBA32UI: uint32 := 0x8D70
  const GL_RGB32UI: uint32 := 0x8D71
  const GL_RGBA16UI: uint32 := 0x8D76
  const GL_RGB16UI: uint32 := 0x8D77
  const GL_RGBA8UI: uint32 := 0x8D7C
  const GL_RGB8UI: uint32 := 0x8D7D
  const GL_RGBA32I: uint32 := 0x8D82
  const GL_RGB32I: uint32 := 0x8D83
  const GL_RGBA16I: uint32 := 0x8D88
  const GL_RGB16I: uint32 := 0x8D89
  const GL_RGBA8I: uint32 := 0x8D8E
  const GL_RGB8I: uint32 := 0x8D8F

  /** The internal formats the mapping names; any other token is Other. */
  datatype InternalFormat =
    | Rgb | Rgb4 | Rgb5 | Rgb8 | Rgb10 | Rgb12 | Rgb16
    | Rgb8Snorm | Rgb16Snorm | R11fG11fB10f | Rgb32f
    | Rgb8i | Rgb8ui | Rgb16i | Rgb16ui | Rgb32i | Rgb32ui
    | Rgba8 | Rgba12 | Rgba16 | Rgba8Snorm | Rgba16Snorm | Rgba32f
    | Rgba8i | Rgba8ui | Rgba16i | Rgba16ui | Rgba32i | Rgba32ui
    | Other(token: uint32)

  /** The 17 case labels of the switch: the 3-component formats. */
  predicate IsCaseLabel(t: uint32) {
    t == GL_RGB || t == GL_RGB4 || t == GL_RGB5 || t == GL_RGB8 || t == GL_RGB10 ||
    t == GL_RGB12 || t == GL_RGB16 || t == GL_RGB8_SNORM || t == GL_RGB16_SNORM ||
    t == GL_R11F_G11F_B10F || t == GL_RGB32F || t == GL_RGB8I || t == GL_RGB8UI ||
    t == GL_RGB16I || t == GL_RGB16UI || t == GL_RGB32I || t == GL_RGB32UI
  }

  /** The tokens that have a constructor of their own: the case labels and
      the 4-component formats they are mapped to. */
  predicate IsNamedToken(t: uint32) {
    IsCaseLabel(t) ||
    t == GL_RGBA8 || t == GL_RGBA12 || t == GL_RGBA16 || t == GL_RGBA8_SNORM ||
    t == GL_RGBA16_SNORM || t == GL_RGBA32F || t == GL_RGBA8I || t == GL_RGBA8UI ||
    t == GL_RGBA16I || t == GL_RGBA16UI || t == GL_RGBA32I || t == GL_RGBA32UI
  }

  /** A format value as the decoder produces it: Other never carries a
      token that has a constructor of its own. */
  predicate Canonical(f: InternalFormat) {
    f.Other? ==> !IsNamedToken(f.token)
  }

  function Token(f: InternalFormat): uint32 {
    match f
    case Rgb => GL_RGB
    case Rgb4 => GL_RGB4
    case Rgb5 => GL_RGB5
    case Rgb8 => GL_RGB8
    case Rgb10 => GL_RGB10
    case Rgb12 => GL_RGB12
    case Rgb16 => GL_RGB16
    case Rgb8Snorm => GL_RGB8_SNORM
    case Rgb16Snorm => GL_RGB16_SNORM
    case R11fG11fB10f => GL_R11F_G11F_B10F
    case Rgb32f => GL_RGB32F
    case Rgb8i => GL_RGB8I
    case Rgb8ui => GL_RGB8UI
    case Rgb16i => GL_RGB16I
    case Rgb16ui => GL_RGB16UI
    case Rgb32i => GL_RGB32I
    case Rgb32ui => GL_RGB32UI
    case Rgba8 => GL_RGBA8
    case Rgba12 => GL_RGBA12
    case Rgba16 => GL_RGBA16
    case Rgba8Snorm => GL_RGBA8_SNORM
    case Rgba16Snorm => GL_RGBA16_SNORM
    case Rgba32f => GL_RGBA32F
    case Rgba8i => GL_RGBA8I
    case Rgba8ui => GL_RGBA8UI
    case Rgba16i => GL_RGBA16I
    case Rgba16ui => GL_RGBA16UI
    case Rgba32i => GL_RGBA32I
    case Rgba32ui => GL_RGBA32UI
    case Other(t) => t
  }

  function FromToken(t: uint32): (f: InternalFormat)
    ensures Canonical(f)
    ensures f.Other? <==> !IsNamedToken(t)
  {
    if t == GL_RGB then Rgb
    else if t == GL_RGB4 then Rgb4
    else if t == GL_RGB5 then Rgb5
    else if t == GL_RGB8 then Rgb8
    else if t == GL_RGB10 then Rgb10
    else if t == GL_RGB12 then Rgb12
    else if t == GL_RGB16 then Rgb16
    else if t == GL_RGB8_SNORM then Rgb8Snorm
    else if t == GL_RGB16_SNORM then Rgb16Snorm
    else if t == GL_R11F_G11F_B10F then R11fG11fB10f
    else if t == GL_RGB32F then Rgb32f
    else if t == GL_RGB8I then Rgb8i
    else if t == GL_RGB8UI then Rgb8ui
    else if t == GL_RGB16I then Rgb16i
    else if t == GL_RGB16UI then Rgb16ui
    else if t == GL_RGB32I then Rgb32i
    else if t == GL_RGB32UI then Rgb32ui
    else if t == GL_RGBA8 then Rgba8
    else if t == GL_RGBA12 then Rgba12
    else if t == GL_RGBA16 then Rgba16
    else if t == GL_RGBA8_SNORM then Rgba8Snorm
    else if t == GL_RGBA16_SNORM then Rgba16Snorm
    else if t == GL_RGBA32F then Rgba32f
    else if t == GL_RGBA8I then Rgba8i
    else if t == GL_RGBA8UI then Rgba8ui
    else if t == GL_RGBA16I then Rgba16i
    else if t == GL_RGBA16UI then Rgba16ui
    else if t == GL_RGBA32I then Rgba32i
    else if t == GL_RGBA32UI then Rgba32ui
    else Other(t)
  }

  /** Decoding a token and encoding it again gives the token back. */
  lemma DecodeEncode(t: uint32)
    ensures Token(FromToken(t)) == t
  {
  }

  /** Every canonical format survives encoding and decoding. */
  lemma EncodeDecode(f: InternalFormat)
    requires Canonical(f)
    ensures FromToken(Token(f)) == f
  {
  }

  /** How a format stores a texel: the number type of its channels, how many
      channels it has, and the fewest bits any channel gets (0 when the
      format is unsized and the implementation picks the size). */
  datatype ChannelKind = Unorm | Snorm | Float | SignedInt | UnsignedInt
  datatype Layout = Layout(kind: ChannelKind, components: nat, bits: nat)

  /** The layout of each named format, as the table of sized internal
      colour formats in section 8.5 of the OpenGL 4.6 core profile
      specification gives it; Other formats are not described. */
  function LayoutOf(f: InternalFormat): Option<Layout> {
    match f
    case Rgb => Some(Layout(Unorm, 3, 0))
    case Rgb4 => Some(Layout(Unorm, 3, 4))
    case Rgb5 => Some(Layout(Unorm, 3, 5))
    case Rgb8 => Some(Layout(Unorm, 3, 8))
    case Rgb10 => Some(Layout(Unorm, 3, 10))
    case Rgb12 => Some(Layout(Unorm, 3, 12))
    case Rgb16 => Some(Layout(Unorm, 3, 16))
    case Rgb8Snorm => Some(Layout(Snorm, 3, 8))
    case Rgb16Snorm => Some(Layout(Snorm, 3, 16))
    case R11fG11fB10f => Some(Layout(Float, 3, 10))
    case Rgb32f => Some(Layout(Float, 3, 32))
    case Rgb8i => Some(Layout(SignedInt, 3, 8))
    case Rgb8ui => Some(Layout(UnsignedInt, 3, 8))
    case Rgb16i => Some(Layout(SignedInt, 3, 16))
    case Rgb16ui => Some(Layout(UnsignedInt, 3, 16))
    case Rgb32i => Some(Layout(SignedInt, 3, 32))
    case Rgb32ui => Some(Layout(UnsignedInt, 3, 32))
    case Rgba8 => Some(Layout(Unorm, 4, 8))
    case Rgba12 => Some(Layout(Unorm, 4, 12))
    case Rgba16 => Some(Layout(Unorm, 4, 16))
    case Rgba8Snorm => Some(Layout(Snorm, 4, 8))
    case Rgba16Snorm => Some(Layout(Snorm, 4, 16))
    case Rgba32f => Some(Layout(Float, 4, 32))
    case Rgba8i => Some(Layout(SignedInt, 4, 8))
    case Rgba8ui => Some(Layout(UnsignedInt, 4, 8))
    case Rgba16i => Some(Layout(SignedInt, 4, 16))
    case Rgba16ui => Some(Layout(UnsignedInt, 4, 16))
    case Rgba32i => Some(Layout(SignedInt, 4, 32))
    case Rgba32ui => Some(Layout(UnsignedInt, 4, 32))
    case Other(_) => None
  }

  predicate ThreeComponent(f: InternalFormat) {
    LayoutOf(f).Some? && LayoutOf(f).value.components == 3
  }

  /** internalFormatToImageFormat on the format datatype.  Exactly the
      3-component formats change; each becomes a 4-component format whose
      channels are at least as wide, of the same number type except that the
      packed float format R11F_G11F_B10F becomes the normalized RGBA16. */
  function ToImageFormat(f: InternalFormat): (r: InternalFormat)
    ensures r != f <==> ThreeComponent(f)
    ensures !ThreeComponent(r)
    ensures Canonical(f) ==> Canonical(r)
    ensures ThreeComponent(f) ==>
      LayoutOf(r).Some? && LayoutOf(r).value.components == 4 &&
      LayoutOf(r).value.bits >= LayoutOf(f).value.bits &&
      (f != R11fG11fB10f ==> LayoutOf(r).value.kind == LayoutOf(f).value.kind)
  {
    match f
    case Rgb | Rgb4 | Rgb5 | Rgb8 => Rgba8
    case Rgb8Snorm => Rgba8Snorm
    case Rgb10 | Rgb12 => Rgba12
    case Rgb16 | R11fG11fB10f => Rgba16
    case Rgb16Snorm => Rgba16Snorm
    case Rgb32f => Rgba32f
    case Rgb8i => Rgba8i
    case Rgb8ui => Rgba8ui
    case Rgb16i => Rgba16i
    case Rgb16ui => Rgba16ui
    case Rgb32i => Rgba32i
    case Rgb32ui => Rgba32ui
    case _ => f
  }

  /** A canonical format is 3-component iff its token is a case label. */
  lemma ThreeComponentToken(f: InternalFormat)
    requires Canonical(f)
    ensures IsCaseLabel(Token(f)) <==> ThreeComponent(f)
  {
  }

  /** internalFormatToImageFormat on raw GLuint tokens. */
  function InternalFormatToImageFormat(internalFormat: uint32): (r: uint32)
    ensures r != internalFormat <==> IsCaseLabel(internalFormat)
    ensures !IsCaseLabel(r)
  {
    var f := FromToken(internalFormat);
    var g := ToImageFormat(f);
    DecodeEncode(internalFormat);
    EncodeDecode(f);
    EncodeDecode(g);
    ThreeComponentToken(f);
    ThreeComponentToken(g);
    Token(g)
  }

  /** No result is a case label again, so a second application is the
      identity. */
  lemma ImageFormatIdempotent(internalFormat: uint32)
    ensures InternalFormatToImageFormat(InternalFormatToImageFormat(internalFormat))
         == InternalFormatToImageFormat(internalFormat)
  {
  }

  /** The widenings the comment at the switch singles out. */
  lemma ImageFormatExamples()
    ensures InternalFormatToImageFormat(GL_RGB8) == GL_RGBA8
    ensures InternalFormatToImageFormat(GL_R11F_G11F_B10F) == GL_RGBA16
    ensures InternalFormatToImageFormat(GL_RGB10) == GL_RGBA12
    ensures InternalFormatToImageFormat(GL_RGBA32F) == GL_RGBA32F
  {
  }

  /** The operation kind tag of the Operation base class. */
  datatype OperationType = OpUnset | OpBindImageTexture

  /** The image uniform of a shader: its location, the image unit it reads,
      and the program it belongs to (shader->getProgramLocation()). */
  datatype ShaderInput = ShaderInput(location: int, imgUnit: uint32, programLocation: uint32)
  /** STextureInfo: the texture object and its internal format. */
  datatype TextureInfo = TextureInfo(texLocation: uint32, internalFormat: uint32)
  /** A component's shader data whose payload is a texture. */
  datatype ShaderData = ShaderData(texInfo: TextureInfo)

  /** The device call the destructor issues to leave the image unit empty. */
  function UnbindCall(input: ShaderInput, data: ShaderData): DeviceCall {
    GlBindImageTexture(input.imgUnit, 0, 0, GL_TRUE, 0, GL_READ_WRITE, data.texInfo.internalFormat)
  }

  /** The device call doExecute issues to attach the texture to the unit. */
  function BindCall(input: ShaderInput, data: ShaderData, access: uint32): DeviceCall {
    GlBindImageTexture(input.imgUnit, data.texInfo.texLocation, 0, GL_TRUE, 0, access, data.texInfo.internalFormat)
  }

  /** A bind-image-texture operation.  A null pointer is None.  The render
      manager stands for the one device the engine drives, so its call log
      is the device log every operation appends to. */
  class BindImageTexture {
    var opType: OperationType
    var shaderUniform: Option<ShaderInput>
    var componentUniform: Option<ShaderData>
    var access: uint32
    const renderManager: Render.RenderManager

    /** Operation::isValid, taken to hold exactly when both uniforms are set. */
    predicate IsValid()
      reads this
    {
      shaderUniform.Some? && componentUniform.Some?
    }

    /** BindImageTexture(): init() only; the BindOperation base leaves both
        uniforms null. */
    constructor (rm: Render.RenderManager)
      ensures renderManager == rm
      ensures opType == OpBindImageTexture
      ensures shaderUniform == None && componentUniform == None
      ensures !IsValid()
    {
      renderManager := rm;
      opType := OpBindImageTexture;
      shaderUniform := None;
      componentUniform := None;
    }

    /** BindImageTexture(texData, shaderInput, access): init() then connect. */
    constructor Connected(rm: Render.RenderManager, texData: Option<ShaderData>,
                          shaderInput: Option<ShaderInput>, access: uint32)
      ensures renderManager == rm
      ensures opType == OpBindImageTexture
      ensures IsValid() <==> texData.Some? && shaderInput.Some?
      ensures IsValid() ==>
        componentUniform == texData && shaderUniform == shaderInput && this.access == access
      ensures !IsValid() ==> shaderUniform == None && componentUniform == None
    {
      renderManager := rm;
      opType := OpBindImageTexture;
      new;
      Connect(texData, shaderInput, access);
    }

    /** connect fails closed: a missing argument leaves the operation with
        no uniforms at all and the access mode as it was. */
    method Connect(texData: Option<ShaderData>, shaderInput: Option<ShaderInput>, accessMode: uint32)
      modifies this`shaderUniform, this`componentUniform, this`access
      ensures IsValid() <==> texData.Some? && shaderInput.Some?
      ensures texData.None? || shaderInput.None? ==>
        shaderUniform == None && componentUniform == None && access == old(access)
      ensures texData.Some? && shaderInput.Some? ==>
        shaderUniform == shaderInput && componentUniform == texData && access == accessMode
    {
      if texData.None? || shaderInput.None? {
        shaderUniform := None;
        componentUniform := None;
        return;
      }
      access := accessMode;
      componentUniform := texData;
      shaderUniform := shaderInput;
    }

    /** The destructor: when valid, best-effort unbinding of the image unit
        (texture 0, read-write); when invalid, nothing. */
    method Destroy()
      modifies renderManager`calls
      ensures renderManager.calls == old(renderManager.calls) +
        if IsValid() then [UnbindCall(shaderUniform.value, componentUniform.value)] else []
    {
      if !IsValid() {
        return;
      }
      renderManager.calls := renderManager.calls + [UnbindCall(shaderUniform.value, componentUniform.value)];
    }

    /** doExecute: select the uniform's program through the render manager's
        cache, point the uniform at the image unit, then bind the texture
        with the stored access mode and its unconverted internal format. */
    method DoExecute()
      requires IsValid()
      modifies renderManager`shaderProgram, renderManager`calls
      ensures renderManager.shaderProgram == shaderUniform.value.programLocation
      ensures renderManager.calls == old(renderManager.calls) +
        (if old(renderManager.shaderProgram) != shaderUniform.value.programLocation
         then [GlUseProgram(shaderUniform.value.programLocation)] else []) +
        [GlUniform1i(shaderUniform.value.location, AsGLint(shaderUniform.value.imgUnit)),
         BindCall(shaderUniform.value, componentUniform.value, access)]
    {
      var input, data := shaderUniform.value, componentUniform.value;
      renderManager.UseShaderProgram(input.programLocation);
      renderManager.calls := renderManager.calls + [GlUniform1i(input.location, AsGLint(input.imgUnit))];
      renderManager.calls := renderManager.calls + [BindCall(input, data, access)];
    }
  }
}
