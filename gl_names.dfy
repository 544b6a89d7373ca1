/**
  The two enum-to-name lookups of src/utils.cpp: `geGlErrStr`, which names an
  OpenGL error code, and the shader-type switch of `easyCreateShader`, which
  picks "VERT", "FRAG" or "GEOM". Both are total on the values they list and fail
  (an assertion, a null name) on every other value; the failure is `None` here.

  The numeric values are the standard ones of the OpenGL API.
*/
module GlNames {

  import opened Wrappers

  const GL_NO_ERROR: nat := 0
  const GL_INVALID_ENUM: nat := 0x0500
  const GL_INVALID_VALUE: nat := 0x0501
  const GL_INVALID_OPERATION: nat := 0x0502
  const GL_STACK_OVERFLOW: nat := 0x0503
  const GL_STACK_UNDERFLOW: nat := 0x0504
  const GL_OUT_OF_MEMORY: nat := 0x0505
  const GL_INVALID_FRAMEBUFFER_OPERATION: nat := 0x0506

  /** The error codes `geGlErrStr` knows. */
  const ErrorCodes: set<nat> := {
    GL_NO_ERROR, GL_INVALID_ENUM, GL_INVALID_VALUE, GL_INVALID_OPERATION,
    GL_INVALID_FRAMEBUFFER_OPERATION, GL_OUT_OF_MEMORY, GL_STACK_UNDERFLOW, GL_STACK_OVERFLOW
  }

  /**
    `geGlErrStr`: exactly the eight listed codes have a name, every other code
    fails, and each name maps back to its code through the reverse table.
  */
  function GlErrStr(err: nat): (r: Option<string>)
    ensures r.Some? <==> err in ErrorCodes
    ensures r.Some? ==> GlErrCode(r.value) == Some(err)
  {
    if err == GL_NO_ERROR then Some("GL_NO_ERROR")
    else if err == GL_INVALID_ENUM then Some("GL_INVALID_ENUM")
    else if err == GL_INVALID_VALUE then Some("GL_INVALID_VALUE")
    else if err == GL_INVALID_OPERATION then Some("GL_INVALID_OPERATION")
    else if err == GL_INVALID_FRAMEBUFFER_OPERATION then Some("GL_INVALID_FRAMEBUFFER_OPERATION")
    else if err == GL_OUT_OF_MEMORY then Some("GL_OUT_OF_MEMORY")
    else if err == GL_STACK_UNDERFLOW then Some("GL_STACK_UNDERFLOW")
    else if err == GL_STACK_OVERFLOW then Some("GL_STACK_OVERFLOW")
    else None
  }

  /** The code an error name stands for: the reverse lookup. */
  function GlErrCode(name: string): Option<nat>
  {
    if name == "GL_NO_ERROR" then Some(GL_NO_ERROR)
    else if name == "GL_INVALID_ENUM" then Some(GL_INVALID_ENUM)
    else if name == "GL_INVALID_VALUE" then Some(GL_INVALID_VALUE)
    else if name == "GL_INVALID_OPERATION" then Some(GL_INVALID_OPERATION)
    else if name == "GL_INVALID_FRAMEBUFFER_OPERATION" then Some(GL_INVALID_FRAMEBUFFER_OPERATION)
    else if name == "GL_OUT_OF_MEMORY" then Some(GL_OUT_OF_MEMORY)
    else if name == "GL_STACK_UNDERFLOW" then Some(GL_STACK_UNDERFLOW)
    else if name == "GL_STACK_OVERFLOW" then Some(GL_STACK_OVERFLOW)
    else None
  }

  /** The eight known codes are distinct. */
  lemma ErrorCodeCount()
    ensures |ErrorCodes| == 8
  {
    var s := {GL_NO_ERROR, GL_INVALID_ENUM, GL_INVALID_VALUE, GL_INVALID_OPERATION};
    var t := {GL_STACK_OVERFLOW, GL_STACK_UNDERFLOW, GL_OUT_OF_MEMORY, GL_INVALID_FRAMEBUFFER_OPERATION};
    assert ErrorCodes == s + t;
    assert s * t == {};
    assert |s| == 4 && |t| == 4;
  }

  /** Round trip the other way: a known name is the name of its code. */
  lemma GlErrStrOfCode(name: string)
    requires GlErrCode(name).Some?
    ensures GlErrStr(GlErrCode(name).value) == Some(name)
  {
  }

  /** Different codes get different names. */
  lemma GlErrStrInjective(a: nat, b: nat)
    requires GlErrStr(a).Some? && GlErrStr(a) == GlErrStr(b)
    ensures a == b
  {
  }

  // ---------------------------------------------------------------------------
  // Shader type names

  const GL_FRAGMENT_SHADER: nat := 0x8B30
  const GL_VERTEX_SHADER: nat := 0x8B31
  const GL_GEOMETRY_SHADER: nat := 0x8DD9

  /** The table `s_shaderTypeNames`. */
  const ShaderTypeNames: seq<string> := ["VERT", "FRAG", "GEOM"]

  /** The slot of `s_shaderTypeNames` the switch selects for a shader type. */
  function ShaderTypeSlot(shaderType: nat): (r: Option<nat>)
    ensures r.Some? ==> r.value < |ShaderTypeNames|
  {
    if shaderType == GL_VERTEX_SHADER then Some(0)
    else if shaderType == GL_FRAGMENT_SHADER then Some(1)
    else if shaderType == GL_GEOMETRY_SHADER then Some(2)
    else None
  }

  /**
    The type name `easyCreateShader` prints: only vertex, fragment and geometry
    shaders have one (`None` where it asserts), and the name maps back to the type.
  */
  function ShaderTypeName(shaderType: nat): (r: Option<string>)
    ensures r.Some? <==> shaderType in {GL_VERTEX_SHADER, GL_FRAGMENT_SHADER, GL_GEOMETRY_SHADER}
    ensures r.Some? ==> ShaderTypeOfName(r.value) == Some(shaderType)
  {
    match ShaderTypeSlot(shaderType)
    case Some(i) => Some(ShaderTypeNames[i])
    case None => None
  }

  /** The shader type a name stands for: the reverse lookup. */
  function ShaderTypeOfName(name: string): Option<nat>
  {
    if name == "VERT" then Some(GL_VERTEX_SHADER)
    else if name == "FRAG" then Some(GL_FRAGMENT_SHADER)
    else if name == "GEOM" then Some(GL_GEOMETRY_SHADER)
    else None
  }

  /** Vertex, fragment and geometry shaders are named VERT, FRAG and GEOM. */
  lemma ShaderTypeNamesAsListed()
    ensures ShaderTypeName(GL_VERTEX_SHADER) == Some("VERT")
    ensures ShaderTypeName(GL_FRAGMENT_SHADER) == Some("FRAG")
    ensures ShaderTypeName(GL_GEOMETRY_SHADER) == Some("GEOM")
  {
  }

  /** Round trip the other way: a known name is the name of its type. */
  lemma ShaderNameRoundTrip(name: string)
    requires ShaderTypeOfName(name).Some?
    ensures ShaderTypeName(ShaderTypeOfName(name).value) == Some(name)
  {
  }
}
