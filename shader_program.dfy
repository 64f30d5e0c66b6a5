/** The shader program handle (dlb::ShaderProgram) and the builder that
    collects shader sources before they are compiled (dlb::ShaderProgramBuilder).
    Compiling, linking and deleting through GL are not part of this model. */
module ShaderPrograms {

  /** OpenGL enumerant values (GLenum) of the two shader stages. */
  const GL_FRAGMENT_SHADER: nat := 0x8B30
  const GL_VERTEX_SHADER: nat := 0x8B31

  /** A linked program, known by its GL id. */
  class ShaderProgram {
    var programId: int

    constructor (id: int)
      ensures programId == id
    {
      programId := id;
    }

    method GetProgramId() returns (r: int)
      ensures r == programId
    {
      r := programId;
    }
  }

  /** One shader source to compile: its file path, its stage, and the GL
      shader id, which stays 0 until the program is built. */
  datatype Shader = Shader(path: string, kind: nat, shaderId: nat)

  class ShaderProgramBuilder {
    var shaders: seq<Shader>
    var shaderProgram: int

    constructor ()
      ensures shaders == [] && shaderProgram == -1
    {
      shaders := [];
      shaderProgram := -1;
    }

    method FragmentShader(path: string)
      modifies this
      ensures shaders == old(shaders) + [Shader(path, GL_FRAGMENT_SHADER, 0)]
      ensures shaderProgram == old(shaderProgram)
    {
      shaders := shaders + [Shader(path, GL_FRAGMENT_SHADER, 0)];
    }

    method VertexShader(path: string)
      modifies this
      ensures shaders == old(shaders) + [Shader(path, GL_VERTEX_SHADER, 0)]
      ensures shaderProgram == old(shaderProgram)
    {
      shaders := shaders + [Shader(path, GL_VERTEX_SHADER, 0)];
    }
  }

  /** A program created with an id reports that id back. */
  method ProgramIdRoundTrip(id: int) returns (r: int)
    ensures r == id
  {
    var program := new ShaderProgram(id);
    r := program.GetProgramId();
  }

  /** The chain `ShaderProgramBuilder().vertexShader(v).fragmentShader(f)`
      lists its two stages in call order. */
  method VertexThenFragment(v: string, f: string) returns (shaders: seq<Shader>)
    ensures shaders == [Shader(v, GL_VERTEX_SHADER, 0), Shader(f, GL_FRAGMENT_SHADER, 0)]
  {
    var builder := new ShaderProgramBuilder();
    builder.VertexShader(v);
    builder.FragmentShader(f);
    shaders := builder.shaders;
  }
}
