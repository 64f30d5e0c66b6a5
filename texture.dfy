/** The texture configuration builder (dlb::Texture2DGroupBuilder): a list of
    at most sixteen texture configurations and a cursor on the one the setters
    write to. Turning the list into GL textures (`build`) is not part of this
    model. */
module Texture {

  /** OpenGL enumerant values (GLuint) used as defaults. */
  const GL_LINEAR: nat := 0x2601
  const GL_LINEAR_MIPMAP_LINEAR: nat := 0x2703
  const GL_REPEAT: nat := 0x2901

  /** Upper bound asserted by `configure_new`. */
  const MaxTextures: nat := 16

  datatype Texture2DConfiguration = Texture2DConfiguration(
    wrap: nat,
    minFiltering: nat,
    magFiltering: nat,
    path: string)

  /** A value-initialised configuration: the struct's member defaults and an empty path. */
  const DefaultConfiguration: Texture2DConfiguration :=
    Texture2DConfiguration(GL_REPEAT, GL_LINEAR_MIPMAP_LINEAR, GL_LINEAR, "")

  class Texture2DGroupBuilder {
    /** Index of the entry the setters write to. */
    var currentTex: int
    var textures: seq<Texture2DConfiguration>

    /** At most sixteen entries; the cursor is 0 on an empty builder and the
        last entry otherwise. */
    ghost predicate Valid()
      reads this
    {
      && |textures| <= MaxTextures
      && currentTex == (if textures == [] then 0 else |textures| - 1)
    }

    constructor ()
      ensures Valid()
      ensures textures == [] && currentTex == 0
    {
      currentTex := 0;
      textures := [];
    }

    /** Starts a new entry with the default settings and points the setters at it. */
    method ConfigureNew()
      requires Valid()
      requires |textures| < MaxTextures
      modifies this
      ensures Valid()
      ensures currentTex == old(|textures|)
      ensures textures == old(textures) + [DefaultConfiguration]
    {
      currentTex := |textures|;
      textures := textures + [DefaultConfiguration];
    }

    method Wrap(value: nat)
      requires Valid()
      requires 0 <= currentTex < |textures|
      modifies this
      ensures Valid()
      ensures currentTex == old(currentTex)
      ensures textures == old(textures[currentTex := textures[currentTex].(wrap := value)])
    {
      textures := textures[currentTex := textures[currentTex].(wrap := value)];
    }

    method MinFiltering(value: nat)
      requires Valid()
      requires 0 <= currentTex < |textures|
      modifies this
      ensures Valid()
      ensures currentTex == old(currentTex)
      ensures textures == old(textures[currentTex := textures[currentTex].(minFiltering := value)])
    {
      textures := textures[currentTex := textures[currentTex].(minFiltering := value)];
    }

    method Path(path: string)
      requires Valid()
      requires 0 <= currentTex < |textures|
      modifies this
      ensures Valid()
      ensures currentTex == old(currentTex)
      ensures textures == old(textures[currentTex := textures[currentTex].(path := path)])
    {
      textures := textures[currentTex := textures[currentTex].(path := path)];
    }
  }

  /** A chained `configure_new().path(a).wrap(w).configure_new().path(b)`:
      each setter reaches only the entry opened last. */
  method ConfigureTwo(a: string, w: nat, b: string) returns (textures: seq<Texture2DConfiguration>, current: int)
    ensures textures == [DefaultConfiguration.(path := a, wrap := w), DefaultConfiguration.(path := b)]
    ensures current == 1
  {
    var builder := new Texture2DGroupBuilder();
    builder.ConfigureNew();
    builder.Path(a);
    builder.Wrap(w);
    builder.ConfigureNew();
    builder.Path(b);
    textures, current := builder.textures, builder.currentTex;
  }
}
