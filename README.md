# LearnOpenGL demos: entity pool, model loader and builders, modelled in Dafny

The repository is a set of OpenGL experiments. Four pieces of it are plain
sequential logic, and this project models them:

- **`ecs::EntityPool`** (`ecs.dfy`, module `Ecs`). The pool keeps two
  parallel vectors, one of entities and one of movement components. Each
  entity's id equals its slot index. Killed slots go onto a LIFO free list,
  and `newEntity` reuses them. `iterate` skips dead slots. For each live slot
  it integrates velocity, then position. It then folds a bounding-box test
  against every other slot into a red/green debug colour and draws the
  model. The class `EntityPool` keeps the three vectors as `seq` fields.
  `Iterate` is proved against the function `Tick`, which folds `StepSlot`
  over the slots. The lemmas prove what a tick does to each slot and to the
  draw trace.
- **`scene::Model` loading** (`scene_model.dfy`, module `SceneModel`). The
  model takes the directory prefix of the asset path, with the `npos + 1`
  wrap-around written out. It walks the importer's node tree in pre-order,
  copies vertices (texture coordinates default to (0, 0)), concatenates
  face indices, and opens one texture configuration per material texture.
  The importer's `aiScene`, `aiNode`, `aiMesh`, `aiFace` and `aiMaterial`
  become plain datatypes.
- **`dlb::Texture2DGroupBuilder`** (`texture.dfy`, module `Texture`). A list
  of at most 16 texture configurations, plus a cursor. The setters write
  only to the entry the cursor points at.
- **`dlb::ShaderProgramBuilder` and `dlb::ShaderProgram`**
  (`shader_program.dfy`, module `ShaderPrograms`). An append-only list of
  (path, stage) entries, and a program handle that reports its id.

`geometry.dfy` (module `Geometry`) holds the `vec2`/`vec3` stand-ins.
Numbers are `real`, and ids and indices are `nat`.

Some things the source takes from its environment enter as parameters:

- the pause flag and the frame delta of the application singleton;
- the bounding-box test `Model::AABBTest`, as an arbitrary total predicate
  over (model id, position, model id, position);
- the importer's output, as `Option<AiScene>`.

Draw requests come back from `Iterate` as a trace of `DrawCall` events.

Two loops become methods of their own: the inner bounding-box loop of
`iterate` (`EntityPool.BoundingBoxColor`), and the loop of `process_node`
over the children (`Model.ProcessChildren`, which recurses into
`ProcessNode`). Each keeps the loop as the source writes it.

A tick tests each entity against every other slot, dead ones included, at
the dead slots' stale positions (include/ecs/ECS.hpp:124-128). `BBColor`
does the same.

## Model

| member | source | states |
|---|---|---|
| `Ecs.EntityPool.constructor` | include/ecs/ECS.hpp:36-40 | A new pool has no entities, no components and an empty free list. The size hint is ignored. |
| `Ecs.EntityPool.GetEntities` | include/ecs/ECS.hpp:44-46 | The enumeration has one entry per component slot, and entry k carries id k. |
| `Ecs.EntityPool.NewEntity` | include/ecs/ECS.hpp:48-86 | Empty free list: appends exactly one live entity `{id, model, shader}` and one component, and returns the old length. Non-empty free list: pops the top id and returns it. The length is unchanged. Only that slot's model, shader, liveness and movement change; its id is left as it was. Both paths keep the pool invariant: equal lengths, id == index, free-list ids in range, every dead slot on the free list. |
| `Ecs.EntityPool.Kill` | include/ecs/ECS.hpp:88-96 | An out-of-range id changes nothing. An in-range id marks the slot dead and pushes the id, whether or not the slot was already dead. Components are never touched. |
| `Ecs.EntityPool.Iterate` | include/ecs/ECS.hpp:98-142 | Entities and the free list are unchanged. The components and the draw trace equal `Tick` of the old state. When paused, that means no change and no draw. |
| `Ecs.EntityPool.BoundingBoxColor` | include/ecs/ECS.hpp:122-133 | The colour from the inner loop is `BBColor` over all slots: each other slot, dead or alive, tested at its current position, sets red on overlap and green otherwise. |
| `Ecs.TickUpTo` | include/ecs/ECS.hpp:104-141 | Visiting slots one by one, in index order, keeps one component per slot. |
| `Ecs.TickUpToComponents` | include/ecs/ECS.hpp:104-118 | Part-way through a tick, slot k has been integrated exactly once (velocity first, then position with the new velocity) if it is live and already visited. Otherwise it is untouched. |
| `Ecs.BBColorFlags` | include/ecs/ECS.hpp:122-133 | Starting from black, red is 1 iff some slot j != i (dead slots included) tests as overlapping. Green is 1 iff some such slot tests as not overlapping. Blue stays 0. |
| `Ecs.LiveSlotsExact` | include/ecs/ECS.hpp:104-108 | The live slots below n, in strictly increasing order: every live slot once and no dead slot. |
| `Ecs.TickUpToDraws` | include/ecs/ECS.hpp:104-141 | A partial tick has issued one draw per live visited slot, in index order. Each draw carries that slot's model id, shader id and integrated position. Its colour is computed against slots below it as already integrated and slots above it as before the tick. |
| `Ecs.TickEffect` | include/ecs/ECS.hpp:98-142 | A whole unpaused tick integrates each live slot once and leaves dead slots unchanged. It draws each live slot exactly once, in index order. |
| `Ecs.DoubleKillHandsOutTwice` | include/ecs/ECS.hpp:53-55 | Killing a slot twice leaves two copies of its id on the free list. The next two `NewEntity` calls then both return that slot. |
| `Ecs.RecycleTakesNewState` | include/ecs/ECS.hpp:53-66 | After two kills, `NewEntity` returns the id killed last. Its movement is exactly the new arguments. |
| `Ecs.FreeFallFrame` | include/ecs/ECS.hpp:113-118 | With one entity falling from rest at acceleration (0, -9.8, 0) and dt = 1, one frame gives velocity and position (0, -9.8, 0). The one draw is black. |
| `Ecs.MixedCollisionColor` | include/ecs/ECS.hpp:124-133 | Three entities, where slot 0 overlaps slot 1 but not slot 2: slot 0 is drawn with both red and green set. |
| `Texture.Texture2DGroupBuilder.constructor` | include/Texture.hpp:52-53 | A new builder has no entries, and its cursor is 0. |
| `Texture.Texture2DGroupBuilder.ConfigureNew` | include/Texture.hpp:55-60 | Requires fewer than 16 entries. Appends exactly one default entry (GL_REPEAT, GL_LINEAR_MIPMAP_LINEAR, GL_LINEAR, empty path) and moves the cursor to it, the old length. |
| `Texture.Texture2DGroupBuilder.Wrap` | include/Texture.hpp:62-65 | Changes only `wrap` of the entry under the cursor. The count, the cursor and all other entries are unchanged. |
| `Texture.Texture2DGroupBuilder.MinFiltering` | include/Texture.hpp:67-70 | Changes only `min_filtering` of the entry under the cursor. Nothing else changes. |
| `Texture.Texture2DGroupBuilder.Path` | include/Texture.hpp:72-75 | Changes only `path` of the entry under the cursor. Nothing else changes. |
| `Texture.ConfigureTwo` | include/Texture.hpp:55-75 | A chain of configure/path/wrap/configure/path gives two entries. Each setter reaches only the entry opened last. |
| `ShaderPrograms.ShaderProgram.constructor` | include/shaders/ShaderProgram.hpp:15-16 | Stores the given id. |
| `ShaderPrograms.ShaderProgram.GetProgramId` | include/shaders/ShaderProgram.hpp:22-24 | Returns the stored id. |
| `ShaderPrograms.ProgramIdRoundTrip` | include/shaders/ShaderProgram.hpp:15-24 | A program built with an id reports that same id back. |
| `ShaderPrograms.ShaderProgramBuilder.constructor` | include/shaders/ShaderProgram.hpp:55-57 | A new builder has an empty shader list. |
| `ShaderPrograms.ShaderProgramBuilder.FragmentShader` | include/shaders/ShaderProgram.hpp:59-62 | Appends exactly `{path, GL_FRAGMENT_SHADER, 0}` at the end. Earlier entries are unchanged. |
| `ShaderPrograms.ShaderProgramBuilder.VertexShader` | include/shaders/ShaderProgram.hpp:64-67 | Appends exactly `{path, GL_VERTEX_SHADER, 0}` at the end. Earlier entries are unchanged. |
| `ShaderPrograms.VertexThenFragment` | include/shaders/ShaderProgram.hpp:59-67 | Chained calls list their entries in call order. |
| `SceneModel.FindLastOf` | src/scene/Model.cpp:19 | Gives the last position holding the character, with nothing equal after it. Gives npos iff the character does not occur. |
| `SceneModel.DirectoryOf` | src/scene/Model.cpp:17-19 | The directory is a prefix of the path that ends in the last backslash, with no backslash after it. Without a backslash, npos + 1 wraps to 0 and the directory is empty. |
| `SceneModel.PreOrderCount` | src/scene/Model.cpp:23-31 | The pre-order list of mesh references is as long as the number of references stored in the tree. |
| `SceneModel.ChildrenPreOrderPrefix` | src/scene/Model.cpp:29-30 | The meshes of earlier children come before those of later children. |
| `SceneModel.FlattenFacesLength` | src/scene/Model.cpp:59-63 | The concatenated index list is as long as the sum of the faces' index counts. |
| `SceneModel.TextureEntriesAt` | src/scene/Model.cpp:77-81 | One default builder entry per texture name. Entry k has path directory + name k. |
| `SceneModel.ProcessedTextures` | src/scene/Model.cpp:67-82 | In a processed mesh, diffuse entries come first and are typed Diffuse, then specular entries typed Specular. Each has path directory + name. |
| `SceneModel.Model.constructor` | include/scene/Model.hpp:15-18 | `error` is set iff the scene is unusable. For a usable scene, the meshes are those of the whole tree, built in pre-order under `DirectoryOf(path)`. |
| `SceneModel.UnreferencedMeshIgnored` | src/scene/Model.cpp:23-31 | A scene whose only mesh is malformed, but which no node references, loads with `error` false and no meshes. |
| `SceneModel.Model.LoadModel` | src/scene/Model.cpp:7-21 | A null, incomplete or rootless scene sets `error` and adds no meshes. Otherwise the directory becomes `DirectoryOf(path)` and the tree's meshes are appended in pre-order. |
| `SceneModel.Model.ProcessNode` | src/scene/Model.cpp:23-31 | Earlier meshes are kept. The meshes appended are one per reference in `PreOrder(node)`: the node's own, then each child's subtree left to right, each built from the referenced scene mesh. |
| `SceneModel.Model.ProcessChildren` | src/scene/Model.cpp:29-30 | Earlier meshes are kept. The meshes appended follow `ChildrenPreOrder` over all children: each child's subtree in turn, left to right. |
| `SceneModel.Model.ProcessMesh` | src/scene/Model.cpp:33-74 | Exactly one vertex per source vertex, in order, with position and normal copied. Texture coordinates come from channel 0 when it exists, else (0, 0). The indices are the faces' indices concatenated in face order. The textures are the material's diffuse entries, then its specular entries. |
| `SceneModel.Model.LoadMaterialTextures` | src/scene/Model.cpp:76-84 | Opens one builder entry per texture of the requested type, with path directory + name, after the existing entries. Each entry's type is Diffuse for the diffuse type, Specular otherwise. |

## Left out

- Floating point: vector components are `real`, so float rounding is not modelled.
- Entity ids, model ids and shader ids are `nat`. The 32-bit `uint` wrap-around (after 2^32 entities) is not modelled.
- `Model::AABBTest`, `Model::translate`, the three-argument `Model::draw`, `getModel`, `getShader` and `getPauseEcs` are not defined in the model's source files. The overlap test is a parameter, and the pause flag is a parameter. The draw is a `DrawCall` event. The call `model.translate(mov.position)` (include/ecs/ECS.hpp:135) has an effect that cannot be seen, so it is not modelled.
- The abort on an out-of-range model id or shader id inside `getModel`/`getShader` is not modelled. Every id is accepted.
- `getDeltaTime` is read once per live entity, but nothing changes it during `iterate`, so it is a single `dt` parameter.
- The chaining return `*this` of the builder setters is not modelled. A chain is a sequence of calls on one object.
- `Texture2DGroupBuilder::build`, `ShaderProgramBuilder::build`, `checkCompileErrors`, the `ShaderProgram` destructor, `setUniform` and `use` are GL calls, stb_image decoding and file reading, so they are not modelled.
- The `.type(...)` setter called at src/scene/Model.cpp:82 is not declared in `include/Texture.hpp`. `Texture2DConfiguration` has no type field. `LoadMaterialTextures` therefore returns the chosen types as a separate list, and `Mesh.textureTypes` keeps them.
- The builders' `textures` and `current_tex` fields are public in the source. Writes to them from outside the class are not modelled.
- The Assimp importer (parsing, post-processing flags, `GetErrorString` and the error print) is not modelled. Its result is the `Option<AiScene>` parameter. A material is reduced to its texture names per texture type.
- `aiMesh::mMaterialIndex` is unsigned, so the `>= 0` test at src/scene/Model.cpp:67 always holds. The model always loads the textures.
- `ProcessMesh`, `ProcessNode`, `ProcessChildren`, `Model.constructor` and `Model.LoadModel` require well-formed importer output, but only for the meshes that some node references: each referenced index is in range and its mesh has a normal per vertex, channel-0 coordinates per vertex when present, a material index in range, and at most 16 diffuse plus specular textures. For a referenced mesh, anything else is out-of-range access or an `assert` abort in the source. Meshes that no node references are never read and may be anything.
- `FindLastOf`, `DirectoryOf`, `Model.constructor`, `Model.LoadModel`: require the path to be shorter than `npos`, which every real string is.
- Mesh GL setup (`Mesh` constructor, `defaultSetup`, `draw`) and `Model::draw` are not modelled. The source hands the `Mesh` constructor `tex_group_builder.build()` (src/scene/Model.cpp:73), the GL textures built from the configurations. The model's `Mesh` keeps the texture configurations from before `build`, with their types, because `build` is not modelled.
