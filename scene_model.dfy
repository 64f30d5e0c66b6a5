/** Asset loading of scene::Model: the importer's scene graph is flattened
    into a list of meshes, each with its vertices, its face indices and the
    texture configurations of its material.

    The importer itself (file parsing, post-processing) is not part of this
    model: its output enters as a plain AiScene value, or None when the
    import failed. GL buffer creation for the built meshes is not modelled
    either; a Mesh here is the data handed to the mesh constructor. */
module SceneModel {
  import opened Geometry
  import opened Texture

  datatype Option<T> = None | Some(value: T)

  // ---------------------------------------------------------------------------
  // The importer's data structures (aiFace, aiMesh, aiMaterial, aiNode, aiScene)

  datatype AiFace = AiFace(indices: seq<nat>)

  /** Per-vertex arrays; texture channel 0 may be absent. */
  datatype AiMesh = AiMesh(
    vertices: seq<Vec3>,
    normals: seq<Vec3>,
    textureCoords0: Option<seq<Vec3>>,
    faces: seq<AiFace>,
    materialIndex: nat)

  datatype AiTextureType =
    | TextureTypeDiffuse
    | TextureTypeSpecular
    | TextureTypeAmbient
    | TextureTypeEmissive
    | TextureTypeHeight
    | TextureTypeNormals

  /** A material, reduced to the texture file names it lists per texture type. */
  datatype AiMaterial = AiMaterial(textures: map<AiTextureType, seq<string>>)

  /** A scene-graph node: indices into the scene's mesh list, and children. */
  datatype AiNode = AiNode(meshes: seq<nat>, children: seq<AiNode>)

  datatype AiScene = AiScene(
    flags: bv32,
    rootNode: Option<AiNode>,
    meshes: seq<AiMesh>,
    materials: seq<AiMaterial>)

  const AI_SCENE_FLAGS_INCOMPLETE: bv32 := 0x1

  /** The names `GetTexture(type, i)` yields for i below `GetTextureCount(type)`. */
  function TextureNames(material: AiMaterial, kind: AiTextureType): seq<string> {
    if kind in material.textures then material.textures[kind] else []
  }

  // ---------------------------------------------------------------------------
  // What the model builds

  datatype Vertex = Vertex(position: Vec3, normal: Vec3, texCoords: Vec2)

  datatype Texture2DType = Diffuse | Specular

  /** A mesh's vertices, indices, texture configurations and the type chosen
      for each texture configuration. */
  datatype Mesh = Mesh(
    vertices: seq<Vertex>,
    indices: seq<nat>,
    textures: seq<Texture2DConfiguration>,
    textureTypes: seq<Texture2DType>)

  // ---------------------------------------------------------------------------
  // Directory prefix of the asset path

  /** std::string::npos, the largest 64-bit size_t. */
  const NPOS: nat := 0xFFFF_FFFF_FFFF_FFFF

  /** size_t arithmetic is modulo 2^64. */
  const SizeModulus: nat := 0x1_0000_0000_0000_0000

  /** `s.find_last_of(c)`: the last position holding c, or npos. */
  function FindLastOf(s: string, c: char): (r: nat)
    requires |s| < NPOS
    ensures r == NPOS <==> c !in s
    ensures r != NPOS ==> r < |s| && s[r] == c && forall k :: r < k < |s| ==> s[k] != c
  {
    if |s| == 0 then NPOS
    else if s[|s| - 1] == c then |s| - 1
    else FindLastOf(s[..|s| - 1], c)
  }

  /** `s.substr(0, count)`: at most count leading characters. */
  function Prefix(s: string, count: nat): string {
    if count < |s| then s[..count] else s
  }

  /** `path.substr(0, path.find_last_of('\\') + 1)`; without a backslash,
      npos + 1 wraps to 0 and the directory is empty. */
  function DirectoryOf(path: string): (dir: string)
    requires |path| < NPOS
    ensures dir <= path
    ensures '\\' !in path ==> dir == ""
    ensures '\\' in path ==> |dir| > 0 && dir[|dir| - 1] == '\\' && '\\' !in path[|dir|..]
  {
    Prefix(path, (FindLastOf(path, '\\') + 1) % SizeModulus)
  }

  // ---------------------------------------------------------------------------
  // Pre-order flattening of the node tree

  /** Mesh references of a subtree in visiting order: the node's own, then
      each child's subtree left to right. */
  function PreOrder(n: AiNode): seq<nat>
    decreases n, 1
  {
    n.meshes + ChildrenPreOrder(n, |n.children|)
  }

  /** Mesh references of the subtrees of the first k children of n. */
  function ChildrenPreOrder(n: AiNode, k: nat): seq<nat>
    requires k <= |n.children|
    decreases n, 0, k
  {
    if k == 0 then [] else ChildrenPreOrder(n, k - 1) + PreOrder(n.children[k - 1])
  }

  /** Number of mesh references stored in a subtree, summed over its nodes. */
  function RefCount(n: AiNode): nat
    decreases n, 1
  {
    |n.meshes| + ChildrenRefCount(n, 0)
  }

  /** Mesh references in the subtrees of the children of n from index `from` on. */
  function ChildrenRefCount(n: AiNode, from: nat): nat
    requires from <= |n.children|
    decreases n, 0, |n.children| - from
  {
    if from == |n.children| then 0 else RefCount(n.children[from]) + ChildrenRefCount(n, from + 1)
  }

  /** The pre-order lists every mesh reference of the tree exactly as often as
      the nodes store it: its length is the tree's reference count. */
  lemma {:induction false} PreOrderCount(n: AiNode)
    ensures |PreOrder(n)| == RefCount(n)
    decreases n, 1
  {
    ChildrenPreOrderCount(n, |n.children|);
  }

  lemma {:induction false} ChildrenPreOrderCount(n: AiNode, k: nat)
    requires k <= |n.children|
    ensures |ChildrenPreOrder(n, k)| + ChildrenRefCount(n, k) == ChildrenRefCount(n, 0)
    decreases n, 0, k
  {
    if k > 0 {
      ChildrenPreOrderCount(n, k - 1);
      PreOrderCount(n.children[k - 1]);
    }
  }

  /** Children visited earlier come first. */
  lemma {:induction false} ChildrenPreOrderPrefix(n: AiNode, i: nat, j: nat)
    requires i <= j <= |n.children|
    ensures ChildrenPreOrder(n, i) <= ChildrenPreOrder(n, j)
    decreases j
  {
    if i < j {
      ChildrenPreOrderPrefix(n, i, j - 1);
    }
  }

  /** Every mesh the references name exists and is well formed. Meshes of
      the scene that no reference names are never read. */
  ghost predicate RefsWellFormed(refs: seq<nat>, scene: AiScene) {
    forall r :: r in refs ==> r < |scene.meshes| && MeshWellFormed(scene.meshes[r], scene.materials)
  }

  /** A child's references are among its parent's. */
  lemma ChildRefsWellFormed(n: AiNode, i: nat, scene: AiScene)
    requires i < |n.children| && RefsWellFormed(PreOrder(n), scene)
    ensures RefsWellFormed(PreOrder(n.children[i]), scene)
  {
    ChildrenPreOrderPrefix(n, i + 1, |n.children|);
    forall r | r in PreOrder(n.children[i])
      ensures r < |scene.meshes| && MeshWellFormed(scene.meshes[r], scene.materials)
    {
      assert r in ChildrenPreOrder(n, i + 1);
      assert r in ChildrenPreOrder(n, |n.children|);
      assert r in PreOrder(n);
    }
  }

  // ---------------------------------------------------------------------------
  // Face indices

  /** Face indices concatenated in face order. */
  function FlattenFaces(faces: seq<AiFace>): seq<nat> {
    if faces == [] then [] else FlattenFaces(faces[..|faces| - 1]) + faces[|faces| - 1].indices
  }

  /** Total of the faces' index counts. */
  function IndexCount(faces: seq<AiFace>): nat {
    if faces == [] then 0 else |faces[0].indices| + IndexCount(faces[1..])
  }

  lemma {:induction false} IndexCountAppend(faces: seq<AiFace>, f: AiFace)
    ensures IndexCount(faces + [f]) == IndexCount(faces) + |f.indices|
  {
    if faces != [] {
      assert (faces + [f])[1..] == faces[1..] + [f];
      IndexCountAppend(faces[1..], f);
    }
  }

  /** The index list holds exactly as many entries as all faces together. */
  lemma {:induction false} FlattenFacesLength(faces: seq<AiFace>)
    ensures |FlattenFaces(faces)| == IndexCount(faces)
  {
    if faces != [] {
      var init := faces[..|faces| - 1];
      FlattenFacesLength(init);
      IndexCountAppend(init, faces[|faces| - 1]);
      assert init + [faces[|faces| - 1]] == faces;
    }
  }

  // ---------------------------------------------------------------------------
  // Material textures

  /** The builder entries `load_material_textures` opens for the given names. */
  function TextureEntries(dir: string, names: seq<string>): seq<Texture2DConfiguration> {
    if names == [] then []
    else TextureEntries(dir, names[..|names| - 1]) + [DefaultConfiguration.(path := dir + names[|names| - 1])]
  }

  /** One default entry per name, its path the directory followed by the name. */
  lemma {:induction false} TextureEntriesAt(dir: string, names: seq<string>)
    ensures |TextureEntries(dir, names)| == |names|
    ensures forall k :: 0 <= k < |names| ==> TextureEntries(dir, names)[k] == DefaultConfiguration.(path := dir + names[k])
  {
    if names != [] {
      TextureEntriesAt(dir, names[..|names| - 1]);
    }
  }

  /** n copies of t. */
  function Repeat(t: Texture2DType, n: nat): (r: seq<Texture2DType>)
    ensures |r| == n && forall k :: 0 <= k < n ==> r[k] == t
  {
    if n == 0 then [] else Repeat(t, n - 1) + [t]
  }

  /** Diffuse for the diffuse texture type, Specular for any other. */
  function TypeFor(kind: AiTextureType): Texture2DType {
    if kind == TextureTypeDiffuse then Diffuse else Specular
  }

  // ---------------------------------------------------------------------------
  // Well-formed importer output, and what a processed mesh is

  /** What process_mesh reads without checking: a normal per vertex, channel-0
      coordinates per vertex when present, an existing material, and no more
      textures than the builder accepts. */
  ghost predicate MeshWellFormed(m: AiMesh, materials: seq<AiMaterial>) {
    && |m.normals| == |m.vertices|
    && (m.textureCoords0.Some? ==> |m.textureCoords0.value| == |m.vertices|)
    && m.materialIndex < |materials|
    && |TextureNames(materials[m.materialIndex], TextureTypeDiffuse)|
       + |TextureNames(materials[m.materialIndex], TextureTypeSpecular)| <= MaxTextures
  }

  /** r is what process_mesh builds from m: vertices copied in order with
      default texture coordinates (0, 0) when channel 0 is absent, face
      indices concatenated, then the diffuse and the specular textures of the
      material under the directory prefix. */
  ghost predicate ProcessedFrom(r: Mesh, m: AiMesh, materials: seq<AiMaterial>, dir: string)
    requires MeshWellFormed(m, materials)
  {
    var diffuse := TextureNames(materials[m.materialIndex], TextureTypeDiffuse);
    var specular := TextureNames(materials[m.materialIndex], TextureTypeSpecular);
    && |r.vertices| == |m.vertices|
    && (forall k :: 0 <= k < |m.vertices| ==>
          && r.vertices[k].position == m.vertices[k]
          && r.vertices[k].normal == m.normals[k]
          && r.vertices[k].texCoords ==
               match m.textureCoords0
               case Some(coords) => Vec2(coords[k].x, coords[k].y)
               case None => Vec2(0.0, 0.0))
    && r.indices == FlattenFaces(m.faces)
    && r.textures == TextureEntries(dir, diffuse) + TextureEntries(dir, specular)
    && r.textureTypes == Repeat(Diffuse, |diffuse|) + Repeat(Specular, |specular|)
  }

  /** ms is the mesh built from the scene mesh that ref names. */
  ghost predicate BuiltFrom(ms: Mesh, ref: nat, scene: AiScene, dir: string) {
    && ref < |scene.meshes|
    && MeshWellFormed(scene.meshes[ref], scene.materials)
    && ProcessedFrom(ms, scene.meshes[ref], scene.materials, dir)
  }

  /** ms are the meshes built, in order, from the scene meshes that refs name. */
  ghost predicate ProcessedSeq(ms: seq<Mesh>, refs: seq<nat>, scene: AiScene, dir: string) {
    && |ms| == |refs|
    && forall k :: 0 <= k < |refs| ==> BuiltFrom(ms[k], refs[k], scene, dir)
  }

  lemma ProcessedSeqAppend(a: seq<Mesh>, ra: seq<nat>, b: seq<Mesh>, rb: seq<nat>, scene: AiScene, dir: string)
    requires ProcessedSeq(a, ra, scene, dir) && ProcessedSeq(b, rb, scene, dir)
    ensures ProcessedSeq(a + b, ra + rb, scene, dir)
  {
    forall k | 0 <= k < |ra| + |rb|
      ensures BuiltFrom((a + b)[k], (ra + rb)[k], scene, dir)
    {
      if k >= |ra| {
        assert (a + b)[k] == b[k - |a|] && (ra + rb)[k] == rb[k - |ra|];
      }
    }
  }

  /** A list holding earlier meshes followed by `built`, extended by a call
      that appends the meshes for refs, holds the earlier meshes followed by
      `built` and then those meshes. */
  lemma ExtendProcessed(prefix: seq<Mesh>, before: seq<Mesh>, after: seq<Mesh>, built: seq<Mesh>,
                        earlier: seq<nat>, refs: seq<nat>, scene: AiScene, dir: string)
    requires before == prefix + built && ProcessedSeq(built, earlier, scene, dir)
    requires |before| <= |after| && after[..|before|] == before
    requires ProcessedSeq(after[|before|..], refs, scene, dir)
    ensures after == prefix + (built + after[|before|..])
    ensures ProcessedSeq(built + after[|before|..], earlier + refs, scene, dir)
  {
    assert after == after[..|before|] + after[|before|..];
    ProcessedSeqAppend(built, earlier, after[|before|..], refs, scene, dir);
  }

  /** Texture order of a processed mesh: the k-th diffuse name comes at k,
      the k-th specular name after all diffuse ones, each as directory + name. */
  lemma ProcessedTextures(r: Mesh, m: AiMesh, materials: seq<AiMaterial>, dir: string)
    requires MeshWellFormed(m, materials) && ProcessedFrom(r, m, materials, dir)
    ensures var diffuse := TextureNames(materials[m.materialIndex], TextureTypeDiffuse);
      var specular := TextureNames(materials[m.materialIndex], TextureTypeSpecular);
      && |r.textures| == |r.textureTypes| == |diffuse| + |specular|
      && (forall k :: 0 <= k < |diffuse| ==>
            r.textures[k] == DefaultConfiguration.(path := dir + diffuse[k]) && r.textureTypes[k] == Diffuse)
      && (forall k :: 0 <= k < |specular| ==>
            r.textures[|diffuse| + k] == DefaultConfiguration.(path := dir + specular[k])
            && r.textureTypes[|diffuse| + k] == Specular)
  {
    var diffuse := TextureNames(materials[m.materialIndex], TextureTypeDiffuse);
    var specular := TextureNames(materials[m.materialIndex], TextureTypeSpecular);
    TextureEntriesAt(dir, diffuse);
    TextureEntriesAt(dir, specular);
  }

  /** The importer produced a usable scene: present, not flagged incomplete,
      and with a root node. */
  predicate Usable(scene: Option<AiScene>) {
    && scene.Some?
    && scene.value.flags & AI_SCENE_FLAGS_INCOMPLETE == 0
    && scene.value.rootNode.Some?
  }

  /** A usable scene whose mesh references and meshes the loader can follow. */
  ghost predicate Loadable(scene: Option<AiScene>)
    requires Usable(scene)
  {
    RefsWellFormed(PreOrder(scene.value.rootNode.value), scene.value)
  }

  class Model {
    var meshes: seq<Mesh>
    var directory: string
    var error: bool

    /** Loads the model at `path`, whose import produced `scene`. */
    constructor (path: string, scene: Option<AiScene>)
      requires |path| < NPOS
      requires Usable(scene) ==> Loadable(scene)
      ensures error == !Usable(scene)
      ensures !Usable(scene) ==> meshes == [] && directory == ""
      ensures Usable(scene) ==>
        && directory == DirectoryOf(path)
        && ProcessedSeq(meshes, PreOrder(scene.value.rootNode.value), scene.value, directory)
    {
      meshes := [];
      directory := "";
      error := false;
      new;
      LoadModel(path, scene);
      assert meshes[0..] == meshes;
    }

    method LoadModel(path: string, scene: Option<AiScene>)
      requires |path| < NPOS
      requires Usable(scene) ==> Loadable(scene)
      modifies this
      ensures !Usable(scene) ==> error && meshes == old(meshes) && directory == old(directory)
      ensures Usable(scene) ==>
        && error == old(error)
        && directory == DirectoryOf(path)
        && |meshes| >= old(|meshes|) && meshes[..old(|meshes|)] == old(meshes)
        && ProcessedSeq(meshes[old(|meshes|)..], PreOrder(scene.value.rootNode.value), scene.value, directory)
    {
      if scene.None? || scene.value.flags & AI_SCENE_FLAGS_INCOMPLETE != 0 || scene.value.rootNode.None? {
        error := true;
        return;
      }
      directory := Prefix(path, (FindLastOf(path, '\\') + 1) % SizeModulus);
      ProcessNode(scene.value.rootNode.value, scene.value);
    }

    /** Appends the meshes of the subtree at `node`, in pre-order: the
        node's own meshes first, then the subtrees of its children. */
    method ProcessNode(node: AiNode, scene: AiScene)
      requires RefsWellFormed(PreOrder(node), scene)
      modifies this
      ensures directory == old(directory) && error == old(error)
      ensures |meshes| >= old(|meshes|) && meshes[..old(|meshes|)] == old(meshes)
      ensures ProcessedSeq(meshes[old(|meshes|)..], PreOrder(node), scene, directory)
      decreases node, 1
    {
      ghost var built: seq<Mesh> := [];
      for i := 0 to |node.meshes|
        invariant directory == old(directory) && error == old(error)
        invariant meshes == old(meshes) + built
        invariant ProcessedSeq(built, node.meshes[..i], scene, directory)
      {
        assert node.meshes[i] in PreOrder(node);
        var mesh := ProcessMesh(scene.meshes[node.meshes[i]], scene);
        ProcessedSeqAppend(built, node.meshes[..i], [mesh], [node.meshes[i]], scene, directory);
        assert node.meshes[..i] + [node.meshes[i]] == node.meshes[..i + 1];
        meshes := meshes + [mesh];
        built := built + [mesh];
      }
      assert node.meshes[..|node.meshes|] == node.meshes;
      ghost var before := meshes;
      ProcessChildren(node, scene);
      ExtendProcessed(old(meshes), before, meshes, built, node.meshes,
                      ChildrenPreOrder(node, |node.children|), scene, directory);
      assert meshes[..|old(meshes)|] == old(meshes);
    }

    /** The loop of process_node over the children of `node`: appends each
        child's subtree in turn. */
    method ProcessChildren(node: AiNode, scene: AiScene)
      requires RefsWellFormed(PreOrder(node), scene)
      modifies this
      ensures directory == old(directory) && error == old(error)
      ensures |meshes| >= old(|meshes|) && meshes[..old(|meshes|)] == old(meshes)
      ensures ProcessedSeq(meshes[old(|meshes|)..], ChildrenPreOrder(node, |node.children|), scene, directory)
      decreases node, 0
    {
      ghost var built: seq<Mesh> := [];
      for i := 0 to |node.children|
        invariant directory == old(directory) && error == old(error)
        invariant meshes == old(meshes) + built
        invariant ProcessedSeq(built, ChildrenPreOrder(node, i), scene, directory)
      {
        ChildRefsWellFormed(node, i, scene);
        ghost var before := meshes;
        ProcessNode(node.children[i], scene);
        ExtendProcessed(old(meshes), before, meshes, built, ChildrenPreOrder(node, i),
                        PreOrder(node.children[i]), scene, directory);
        built := built + meshes[|before|..];
      }
      assert meshes[..|old(meshes)|] == old(meshes) && meshes[|old(meshes)|..] == built;
    }

    /** Builds one mesh from the importer's mesh `mesh`. */
    method ProcessMesh(mesh: AiMesh, scene: AiScene) returns (r: Mesh)
      requires MeshWellFormed(mesh, scene.materials)
      ensures ProcessedFrom(r, mesh, scene.materials, directory)
    {
      var vertices: seq<Vertex> := [];
      for i := 0 to |mesh.vertices|
        invariant |vertices| == i
        invariant forall k :: 0 <= k < i ==>
          && vertices[k].position == mesh.vertices[k]
          && vertices[k].normal == mesh.normals[k]
          && vertices[k].texCoords ==
               match mesh.textureCoords0
               case Some(coords) => Vec2(coords[k].x, coords[k].y)
               case None => Vec2(0.0, 0.0)
      {
        var position := Vec3(mesh.vertices[i].x, mesh.vertices[i].y, mesh.vertices[i].z);
        var normal := Vec3(mesh.normals[i].x, mesh.normals[i].y, mesh.normals[i].z);
        var texCoords;
        if mesh.textureCoords0.Some? {
          texCoords := Vec2(mesh.textureCoords0.value[i].x, mesh.textureCoords0.value[i].y);
        } else {
          texCoords := Vec2(0.0, 0.0);
        }
        vertices := vertices + [Vertex(position, normal, texCoords)];
      }

      var indices: seq<nat> := [];
      for i := 0 to |mesh.faces|
        invariant indices == FlattenFaces(mesh.faces[..i])
      {
        var face := mesh.faces[i];
        for j := 0 to |face.indices|
          invariant indices == FlattenFaces(mesh.faces[..i]) + face.indices[..j]
        {
          indices := indices + [face.indices[j]];
        }
        assert mesh.faces[..i + 1][..i] == mesh.faces[..i];
      }
      assert mesh.faces[..|mesh.faces|] == mesh.faces;

      // The material index is unsigned, so the source's `>= 0` test always holds.
      var builder := new Texture2DGroupBuilder();
      var material := scene.materials[mesh.materialIndex];
      var diffuseTypes := LoadMaterialTextures(builder, material, TextureTypeDiffuse);
      TextureEntriesAt(directory, TextureNames(material, TextureTypeDiffuse));
      var specularTypes := LoadMaterialTextures(builder, material, TextureTypeSpecular);
      r := Mesh(vertices, indices, builder.textures, diffuseTypes + specularTypes);
    }

    /** Opens one builder entry per texture of the given type, with path
        directory + name; returns the type chosen for each entry. */
    method LoadMaterialTextures(builder: Texture2DGroupBuilder, material: AiMaterial, kind: AiTextureType)
      returns (types: seq<Texture2DType>)
      requires builder.Valid()
      requires |builder.textures| + |TextureNames(material, kind)| <= MaxTextures
      modifies builder
      ensures builder.Valid()
      ensures builder.textures == old(builder.textures) + TextureEntries(directory, TextureNames(material, kind))
      ensures types == Repeat(TypeFor(kind), |TextureNames(material, kind)|)
    {
      var names := TextureNames(material, kind);
      types := [];
      for i := 0 to |names|
        invariant builder.Valid()
        invariant builder.textures == old(builder.textures) + TextureEntries(directory, names[..i])
        invariant |builder.textures| == old(|builder.textures|) + i
        invariant types == Repeat(TypeFor(kind), i)
      {
        builder.ConfigureNew();
        builder.Path(directory + names[i]);
        types := types + [TypeFor(kind)];
        assert names[..i + 1][..i] == names[..i];
        TextureEntriesAt(directory, names[..i + 1]);
      }
      assert names[..|names|] == names;
    }
  }

  /** A scene whose only mesh is malformed (a vertex without a normal) but
      referenced by no node loads without error and yields no mesh: the
      loader reads only the meshes the nodes name. */
  method UnreferencedMeshIgnored() returns (error: bool, count: nat)
    ensures !error && count == 0
  {
    var scene := AiScene(0, Some(AiNode([], [])), [AiMesh([Origin], [], None, [], 0)], [AiMaterial(map[])]);
    assert PreOrder(AiNode([], [])) == [];
    var model := new Model("assets\\cube.obj", Some(scene));
    error, count := model.error, |model.meshes|;
  }
}
