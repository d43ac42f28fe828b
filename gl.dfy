/** OpenGL vocabulary shared by the model: the integer widths of the GL
    types, the enum tokens the core passes to the device, and the events of
    the device call log.  Token values are those of the OpenGL API headers. */
module GL {

  /** GLuint / GLenum: unsigned 32-bit. */
  newtype uint32 = x: int | 0 <= x < 0x1_0000_0000
  /** GLuint64: unsigned 64-bit. */
  newtype uint64 = x: int | 0 <= x < 0x1_0000_0000_0000_0000

  const UINT32_MODULUS: int := 0x1_0000_0000
  const UINT64_MODULUS: int := 0x1_0000_0000_0000_0000

  /** Unsigned 32-bit addition as C++ performs it on GLenum values. */
  function AddWrap32(a: uint32, b: uint32): (r: uint32)
    ensures a as int + b as int < UINT32_MODULUS ==> r as int == a as int + b as int
    ensures a as int + b as int >= UINT32_MODULUS ==> r as int == a as int + b as int - UINT32_MODULUS
  {
    ((a as int + b as int) % UINT32_MODULUS) as uint32
  }

  /** Unsigned 64-bit subtraction as C++ performs it on GLuint64 values. */
  function SubWrap64(a: uint64, b: uint64): (r: uint64)
    ensures b <= a ==> r as int == a as int - b as int
    ensures a < b ==> r as int == a as int - b as int + UINT64_MODULUS
  {
    ((a as int - b as int) % UINT64_MODULUS) as uint64
  }

  /** The GLint a GLuint argument becomes when C++ converts it implicitly
      (two's complement reinterpretation). */
  function AsGLint(x: uint32): (r: int)
    ensures -0x8000_0000 <= r < 0x8000_0000
    ensures (r - x as int) % UINT32_MODULUS == 0
    ensures x as int < 0x8000_0000 ==> r == x as int
  {
    if x as int < 0x8000_0000 then x as int else x as int - UINT32_MODULUS
  }

  /** 2^53: every integer below it is a double. */
  const DOUBLE_SIGNIFICAND_BOUND: nat := 0x20_0000_0000_0000

  function Pow2(e: nat): (p: nat)
    ensures p >= 1
  {
    if e == 0 then 1 else 2 * Pow2(e - 1)
  }

  /** How many low bits of x a double's 53-bit significand cannot keep. */
  function Excess(x: nat): nat
  {
    if x < DOUBLE_SIGNIFICAND_BOUND then 0 else 1 + Excess(x / 2)
  }

  /** The 53 leading bits of x. */
  function Lead(x: nat): (t: nat)
    ensures t < DOUBLE_SIGNIFICAND_BOUND
  {
    if x < DOUBLE_SIGNIFICAND_BOUND then x else Lead(x / 2)
  }

  /** The bits of x below its 53 leading ones. */
  function Tail(x: nat): nat
  {
    if x < DOUBLE_SIGNIFICAND_BOUND then 0 else x % 2 + 2 * Tail(x / 2)
  }

  lemma MulDouble(t: nat, p: nat)
    ensures t * (2 * p) == 2 * (t * p)
  {
  }

  lemma MulSucc(t: nat, u: nat)
    ensures (t + 1) * u == t * u + u
  {
  }

  lemma {:induction false} LeadTail(x: nat)
    ensures x == Lead(x) * Pow2(Excess(x)) + Tail(x)
    ensures Tail(x) < Pow2(Excess(x))
  {
    if x >= DOUBLE_SIGNIFICAND_BOUND {
      LeadTail(x / 2);
      MulDouble(Lead(x / 2), Pow2(Excess(x / 2)));
    }
  }

  /** Whether rounding to nearest, ties to even, goes up. */
  predicate RoundsUp(x: nat) {
    Excess(x) > 0 &&
    (2 * Tail(x) > Pow2(Excess(x)) || (2 * Tail(x) == Pow2(Excess(x)) && Lead(x) % 2 == 1))
  }

  /** The significand of the double nearest to x. */
  function RoundedLead(x: nat): (m: nat)
    ensures m <= DOUBLE_SIGNIFICAND_BOUND
  {
    if RoundsUp(x) then Lead(x) + 1 else Lead(x)
  }

  /** Conversion of an integer to the nearest double, ties to even. */
  function NearestDouble(x: nat): nat
  {
    RoundedLead(x) * Pow2(Excess(x))
  }

  /** Below 2^53 the conversion is exact; above, the result is at most half
      a unit in the last place away from x, and ties go to an even
      significand. */
  lemma NearestDoubleError(x: nat)
    ensures x < DOUBLE_SIGNIFICAND_BOUND ==> NearestDouble(x) == x
    ensures 2 * (NearestDouble(x) - x) <= Pow2(Excess(x))
    ensures 2 * (x - NearestDouble(x)) <= Pow2(Excess(x))
  {
    LeadTail(x);
    var t, u := Lead(x), Pow2(Excess(x));
    if RoundsUp(x) {
      MulSucc(t, u);
    } else if Excess(x) == 0 {
      assert u == 1 && t * u == t;
    }
  }

  /** `GLuint64 d = static_cast<double>(x)`: x is rounded to the nearest
      double and converted back.  The one result no GLuint64 can hold, 2^64,
      makes that conversion undefined; the model gives 2^64 - 1 for it. */
  function DoubleRoundTrip(x: uint64): (r: uint64)
    ensures x as int < DOUBLE_SIGNIFICAND_BOUND ==> r == x
    ensures NearestDouble(x as nat) < UINT64_MODULUS ==> r as int == NearestDouble(x as nat)
    ensures 2 * (r as int - x as int) <= Pow2(Excess(x as nat))
    ensures 2 * (x as int - r as int) <= Pow2(Excess(x as nat))
  {
    var n := NearestDouble(x as nat);
    NearestDoubleError(x as nat);
    if n < UINT64_MODULUS then n as uint64 else (UINT64_MODULUS - 1) as uint64
  }

  /** Past 2^53 the round trip loses the low bits: 2^53 + 1 is a tie and
      goes to the even significand, 2^53 + 3 rounds up. */
  lemma DoubleRoundTripExamples()
    ensures DoubleRoundTrip(0x20_0000_0000_0001) == 0x20_0000_0000_0000
    ensures DoubleRoundTrip(0x20_0000_0000_0003) == 0x20_0000_0000_0004
    ensures DoubleRoundTrip(0x20_0000_0000_0004) == 0x20_0000_0000_0004
  {
  }

  /** KORE_GLUINT_HANDLE_INVALID: the "no object" handle of the engine. */
  const HANDLE_INVALID: uint32 := 0xFFFF_FFFF

  const GL_TRUE: uint32 := 1
  const GL_READ_WRITE: uint32 := 0x88BA

  // Buffer-binding targets.
  const GL_ARRAY_BUFFER: uint32 := 0x8892
  const GL_ATOMIC_COUNTER_BUFFER: uint32 := 0x92C0
  const GL_COPY_READ_BUFFER: uint32 := 0x8F36
  const GL_COPY_WRITE_BUFFER: uint32 := 0x8F37
  const GL_DRAW_INDIRECT_BUFFER: uint32 := 0x8F3F
  const GL_DISPATCH_INDIRECT_BUFFER: uint32 := 0x90EE
  const GL_ELEMENT_ARRAY_BUFFER: uint32 := 0x8893
  const GL_PIXEL_PACK_BUFFER: uint32 := 0x88EB
  const GL_PIXEL_UNPACK_BUFFER: uint32 := 0x88EC
  const GL_SHADER_STORAGE_BUFFER: uint32 := 0x90D2
  const GL_TEXTURE_BUFFER: uint32 := 0x8C2A
  const GL_TRANSFORM_FEEDBACK_BUFFER: uint32 := 0x8C8E
  const GL_UNIFORM_BUFFER: uint32 := 0x8A11

  // Texture-binding targets (GL_TEXTURE_BUFFER is shared with the buffer targets).
  const GL_TEXTURE_1D: uint32 := 0x0DE0
  const GL_TEXTURE_2D: uint32 := 0x0DE1
  const GL_TEXTURE_3D: uint32 := 0x806F
  const GL_TEXTURE_1D_ARRAY: uint32 := 0x8C18
  const GL_TEXTURE_2D_ARRAY: uint32 := 0x8C1A
  const GL_TEXTURE_RECTANGLE: uint32 := 0x84F5
  const GL_TEXTURE_CUBE_MAP: uint32 := 0x8513
  const GL_TEXTURE_CUBE_MAP_ARRAY: uint32 := 0x9009
  const GL_TEXTURE_2D_MULTISAMPLE: uint32 := 0x9100
  const GL_TEXTURE_2D_MULTISAMPLE_ARRAY: uint32 := 0x9102

  const GL_TEXTURE0: uint32 := 0x84C0

  // Framebuffer-binding targets.
  const GL_FRAMEBUFFER: uint32 := 0x8D40
  const GL_READ_FRAMEBUFFER: uint32 := 0x8CA8
  const GL_DRAW_FRAMEBUFFER: uint32 := 0x8CA9

  // Implementation-limit *query tokens*; the engine uses their values as array sizes.
  const GL_MAX_COMBINED_TEXTURE_IMAGE_UNITS: uint32 := 0x8B4D
  const GL_MAX_COMBINED_ATOMIC_COUNTER_BUFFERS: uint32 := 0x92D1
  const GL_MAX_COMBINED_ATOMIC_COUNTERS: uint32 := 0x92D7

  /** glm::ivec2 */
  datatype IVec2 = IVec2(x: int, y: int)
  /** glm::ivec4 (a viewport is x, y, width = z, height = w) */
  datatype IVec4 = IVec4(x: int, y: int, z: int, w: int)
  /** glm::bvec4 (a colour mask) */
  datatype BVec4 = BVec4(r: bool, g: bool, b: bool, a: bool)

  /** One call into the graphics device, as the device log records it. */
  datatype DeviceCall =
    | GlBindBuffer(target: uint32, buffer: uint32)
    | GlBindVertexArray(vertexArray: uint32)
    | GlUseProgram(program: uint32)
    | GlActiveTexture(texture: uint32)
    | GlBindTexture(target: uint32, texture: uint32)
    | GlBindSampler(unit: uint32, sampler: uint32)
    | GlBindFramebuffer(target: uint32, framebuffer: uint32)
    | GlBindBufferBase(target: uint32, index: uint32, buffer: uint32)
    | GlColorMask(red: bool, green: bool, blue: bool, alpha: bool)
    | GlViewport(x: int, y: int, width: int, height: int)
    | GlIsEnabled(cap: uint32)
    | GlEnable(cap: uint32)
    | GlDisable(cap: uint32)
    | GlUniform1i(location: int, value: int)
    | GlBindImageTexture(unit: uint32, texture: uint32, level: int, layered: uint32,
                       layer: int, access: uint32, format: uint32)
    | GlQueryCounter(query: uint32)
    | GlGenQueries
    | GlDeleteQueries(query: uint32)
    | GlCreateShader(shaderType: uint32)
    | GlShaderSource(shader: uint32, source: string)
    | GlCompileShader(shader: uint32)
    | GlDeleteShader(shader: uint32)
}
