# gput2 core in Dafny

This project models the core of gput2, a small OpenGL playground. The core has
three parts.

- **The mesh generators of `Utils.h`.** `GenerateCylinder`, `GenerateCone`,
  `GenerateSphere` and `GenerateGrid` allocate a float vertex buffer and an
  int index buffer. They fill both through the `InsertVertex`,
  `InsertVertex2D` and `InsertIndex` helpers, and report the buffer sizes.
- **The fly-through camera of `Camera.h`** (`GCamera`): its default
  constructor values, keyboard movement, mouse turning with the pitch clamp,
  scroll zoom with the zoom clamp, and the recomputation of its basis vectors.
- **The input-mode machine of `Main.cpp`.** This is the `EState` machine
  (game, menu, demo) that `KeyCallback` and the menu's demo buttons drive. It
  also covers the state-gated mouse, scroll and keyboard input, the frame time,
  and the 120-slot FPS ring buffer of the help window.

Floats are modelled as exact `real`s. `std::cos`, `std::sin`,
`glm::normalize` and `glm::cross` are left uninterpreted. They are supplied
as one `Numerics` value (`geometry.dfy`), so every statement about vertex
positions and normals holds for any implementation of them.

## How the generators are modelled

Each generator is an imperative method over fresh `array`s. Its loops are
those of the source: the same order, the same offsets and the same `%`
wrap-around. Each method is proved against a specification made of three
parts:

- **The specification.** A pure function lists the vertex records in buffer
  order (e.g. `CylinderVertices`). Another lists the triangles in index-buffer
  order (e.g. `CylinderTriangles`).
- **The layout.** `PackVertices`, `PackPoints` and `PackTriangles` define how
  records are laid out as 6, 2 or 3 numbers, the way `InsertVertex`,
  `InsertVertex2D` and `InsertIndex` write them.
- **The postcondition.** Each generator ensures
  `buffer[..] == Pack(spec)`. So every slot of both buffers is written, and
  with exactly the value the source writes. Each generator also ensures the
  buffer sizes, and that every index names an existing vertex record.

Lemmas about the specification state:

- the layout of the records (poles first, then the rings in angular order);
- which triangles sit where;
- that every index stays in range;
- that the rings close across the seam, so the last segment is stitched to
  the first.

The camera is a class whose methods update their fields in place. Their
postconditions tie the new `Yaw`, `Pitch`, `Zoom` and `Position` to pure
functions (`TurnedPitch`, `ScrolledZoom`, `Moved`). The properties are then
proved about those functions:

- clamping ranges;
- moving and then moving in the opposite direction is the identity;
- two steps in one direction compose into one step.

`Main.cpp`'s globals are the fields of an `Application` class, and each
callback is one of its methods. The mode-related globals form a `Controls`
value. `KeyCallback` and the demo buttons are tied to the pure step
functions `KeyStep` and `MenuStep`. A lemma proves, for every sequence of key
and menu events from the program's start, that a demo flag is set exactly
while the state is `OnDemo`. The class invariant `Valid` carries that fact
together with:

- the FPS ring bounds;
- the camera's zoom range.

## Model

| member | source | states |
|---|---|---|
| Utils.PackVertices | gput2/Utils.h:90-98 | a buffer of n vertex records holds 6n floats |
| Utils.PackPoints | gput2/Utils.h:110-114 | a buffer of n 2-D points holds 2n floats |
| Utils.PackTriangles | gput2/Utils.h:122-127 | an index buffer of n triangles holds 3n ints |
| Utils.PackVerticesAt | gput2/Utils.h:90-98 | record k occupies floats 6k..6k+5 as x, y, z, nx, ny, nz |
| Utils.PackPointsAt | gput2/Utils.h:110-114 | point k occupies floats 2k (x) and 2k+1 (y) |
| Utils.PackTrianglesAt | gput2/Utils.h:122-127 | triangle k occupies ints 3k..3k+2 |
| Utils.PackTrianglesBelow | gput2/Utils.h:122-127 | if every triangle's corners are below n, so is every int of the packed index buffer |
| Utils.InsertVertex | gput2/Utils.h:90-98 | the six floats from Index on are x, y, z and the normal; every other slot is unchanged |
| Utils.InsertVertexWithNormal | gput2/Utils.h:100-103 | writes the record (x, y, z, Normal) at Index; every other slot is unchanged |
| Utils.InsertVertexVectors | gput2/Utils.h:105-108 | writes the record (Vertex, Normal) at Index; every other slot is unchanged |
| Utils.InsertVertex2D | gput2/Utils.h:110-114 | the two floats from Index on are x and y; every other slot is unchanged |
| Utils.InsertVertex2DVector | gput2/Utils.h:116-120 | writes the point's x and y at Index; every other slot is unchanged |
| Utils.InsertIndex | gput2/Utils.h:122-127 | the three ints from Index on are the triangle's corners; every other slot is unchanged |
| Utils.SegmentNeighbours | gput2/Utils.h:217-226 | (n+i-1)%n and (i+1)%n are the previous and next segment, wrapping at the seam |
| Utils.RingTables | gput2/Utils.h:137-142 | the tables hold Radius·cos θ_i and Radius·sin θ_i with θ_i = (i/n)·2π, for every segment i |
| Cylinder.CylinderVertices | gput2/Utils.h:144-160 | after n ring iterations the buffer holds the two poles and 2n ring records |
| Cylinder.CylinderBand | gput2/Utils.h:169-189 | each index loop emits one triangle per segment |
| Cylinder.CylinderVerticesAt | gput2/Utils.h:144-160 | records 0 and 1 are the top and bottom poles; records 2(i+1) and 2(i+1)+1 are the top and bottom ring vertices of segment i |
| Cylinder.CylinderBandAt | gput2/Utils.h:169-189 | triangle i of a band is the triangle of segment i |
| Cylinder.CylinderTrianglesAt | gput2/Utils.h:165-189 | 4·Vertices triangles, band after band: top fan, two side bands, bottom fan |
| Cylinder.CylinderBandBelow | gput2/Utils.h:169-189 | every corner of a band is below 2·Vertices+2 |
| Cylinder.CylinderTrianglesBelow | gput2/Utils.h:165-189 | every index names one of the 2·Vertices+2 records |
| Cylinder.CylinderRingCloses | gput2/Utils.h:169-189 | in each fan, and across the two side bands, segment i shares an edge with the next segment; the last segment's fan triangles are (0, 2·Vertices, 2) and (1, 2·Vertices+1, 3) |
| Cylinder.CylinderPoleSlots | gput2/Utils.h:144-145 | floats 0..11 are the top and bottom pole records |
| Cylinder.CylinderSegmentSlots | gput2/Utils.h:153-160 | floats 12(i+1).. hold segment i's top record, then its bottom record |
| Cylinder.CylinderBandSlots | gput2/Utils.h:169-189 | ints 3(band·Vertices+i).. hold that band's triangle i |
| Cylinder.GenerateCylinder | gput2/Utils.h:129-190 | sizes 12(Vertices+1) and 12·Vertices; both buffers equal the packed specification; every index is below 2·Vertices+2 |
| Cylinder.CylinderVertexBuffer | gput2/Utils.h:131-160 | the vertex buffer equals the packed pole and ring records |
| Cylinder.CylinderIndexBuffer | gput2/Utils.h:165-189 | the index buffer equals the four packed bands |
| Cone.ConeVertices | gput2/Utils.h:208-226 | after n ring iterations the buffer holds n+2 records |
| Cone.ConeTriangles | gput2/Utils.h:234-238 | after n index iterations there are 2n triangles |
| Cone.ConeVerticesAt | gput2/Utils.h:208-226 | record 0 is the apex, record 1 the base centre, and record i+2 base-ring vertex i |
| Cone.ConeTrianglesAt | gput2/Utils.h:234-238 | triangle 2i is segment i's side triangle and 2i+1 its base triangle |
| Cone.ConeTrianglesBelow | gput2/Utils.h:234-238 | every corner is below Vertices+2 |
| Cone.ConeRingCloses | gput2/Utils.h:234-238 | consecutive side and base triangles share a ring vertex; the last side triangle is (0, Vertices+1, 2) |
| Cone.ConeCentreSlots | gput2/Utils.h:208-209 | floats 0..11 are the apex and base-centre records |
| Cone.ConeRingSlots | gput2/Utils.h:217-226 | floats 6(i+2).. hold ring vertex i with the normal from its neighbours |
| Cone.ConePairSlots | gput2/Utils.h:234-238 | ints 6i.. hold segment i's side triangle, then its base triangle |
| Cone.GenerateCone | gput2/Utils.h:192-239 | sizes 6(Vertices+2) and 6·Vertices; both buffers equal the packed specification; every index is below Vertices+2 |
| Cone.ConeVertexBuffer | gput2/Utils.h:194-226 | the vertex buffer equals the packed records |
| Cone.ConeIndexBuffer | gput2/Utils.h:231-238 | the index buffer equals the packed triangle pairs |
| Sphere.SphereCaps | gput2/Utils.h:335-339 | after n cap iterations there are 2n triangles |
| Sphere.BandCellAt | gput2/Utils.h:341-348 | cells 2j and 2j+1 of a band row are quad j's upper and lower triangles |
| Sphere.SphereVerticesLength | gput2/Utils.h:243 | the vertex buffer holds 2+(Rings-1)·Segments records |
| Sphere.SphereBandsLength | gput2/Utils.h:332 | the bands hold 2·(Rings-2)·Segments triangles |
| Sphere.SphereCapsAt | gput2/Utils.h:335-339 | triangle 2i is north cap i and 2i+1 south cap i |
| Sphere.SphereCapsBelow | gput2/Utils.h:335-339 | every cap corner names an existing record |
| Sphere.SphereBandsBelow | gput2/Utils.h:341-348 | every band corner names an existing record |
| Sphere.SphereTrianglesBelow | gput2/Utils.h:332-348 | every index names one of the 2+(Rings-1)·Segments records |
| Sphere.SphereRingCloses | gput2/Utils.h:335-348 | consecutive cap triangles share an edge across the seam; a quad's two band triangles share its diagonal |
| Sphere.SpherePoleSlots | gput2/Utils.h:280-281 | floats 0..11 are the north and south pole records |
| Sphere.SphereRecordSlots | gput2/Utils.h:283-314 | floats 6(i·Segments+j+2).. hold the record of parallel i, segment j |
| Sphere.SphereCapSlots | gput2/Utils.h:335-339 | ints 6i.. hold north cap i, then south cap i |
| Sphere.UpperBandSlots | gput2/Utils.h:345 | ints 6·Segments+6(i·Segments+j).. hold quad (i, j)'s upper triangle |
| Sphere.LowerBandSlots | gput2/Utils.h:346 | three ints later hold quad (i, j)'s lower triangle |
| Sphere.GenerateSphere | gput2/Utils.h:241-349 | sizes 6(2+(Rings-1)·Segments) and 6·Segments+6(Rings-2)·Segments; both buffers equal the packed specification; every index is in range |
| Sphere.SphereTables | gput2/Utils.h:261-275 | the three tables hold R·cosθ·sinφ, R·sinθ·sinφ and R·cosφ of every ring point |
| Sphere.SphereTableRow | gput2/Utils.h:263-274 | one row of the tables is filled; the other rows are unchanged |
| Sphere.SphereRecord | gput2/Utils.h:287-310 | the vertex and the normal built from the four neighbours form the specified record, with the poles standing in above the first parallel and below the last |
| Sphere.SphereVertexBuffer | gput2/Utils.h:243-314 | the vertex buffer equals the packed records |
| Sphere.SpherePoles | gput2/Utils.h:280-281 | the first 12 floats are the pole records |
| Sphere.SphereParallels | gput2/Utils.h:283-314 | after the parallel loop every float equals the specification |
| Sphere.SphereParallel | gput2/Utils.h:285-313 | one parallel's records are written after those before it |
| Sphere.SphereWriteRecord | gput2/Utils.h:312 | writes record (i, j) at its slot and nothing else |
| Sphere.SphereIndexBuffer | gput2/Utils.h:332-348 | the index buffer equals the packed caps and bands |
| Sphere.SphereCapIndices | gput2/Utils.h:335-339 | the first 6·Segments ints are the packed caps |
| Sphere.SphereBandIndices | gput2/Utils.h:341-348 | after the band loops every int equals the specification |
| Sphere.SphereBandRow | gput2/Utils.h:343-347 | one band row's triangles are written after those before it |
| Grid.GridPointsLength | gput2/Utils.h:354 | the grid has Size² points, with Size = 2·Vertices+1 |
| Grid.GridTrianglesLength | gput2/Utils.h:367 | there are 2(Size-1)² triangles |
| Grid.QuadCellAt | gput2/Utils.h:374-375 | cells 2j and 2j+1 of a row are cell j's first and second triangles |
| Grid.GridLattice | gput2/Utils.h:359-365 | point i·Size+j is SeparationFactor·(j-Vertices, Vertices-i), with both lattice coordinates in [-Vertices, Vertices] |
| Grid.GridTrianglesBelow | gput2/Utils.h:370-377 | every corner is below Size² |
| Grid.QuadDiagonal | gput2/Utils.h:374-375 | the two triangles of a cell share its diagonal |
| Grid.GridPointSlots | gput2/Utils.h:363 | floats 2(i·Size+j).. hold point (i, j) |
| Grid.QuadSlots | gput2/Utils.h:374-375 | ints 6(i(Size-1)+j).. hold cell (i, j)'s first triangle, and the next three its second |
| Grid.GenerateGrid | gput2/Utils.h:351-378 | sizes 2·Size² and 6(Size-1)²; SeparationFactor = Range/Size; both buffers equal the packed specification; every index is below Size² |
| Grid.GridVertexBuffer | gput2/Utils.h:359-365 | the point buffer equals the packed lattice |
| Grid.GridIndexBuffer | gput2/Utils.h:367-377 | the index buffer equals the packed cells |
| Grid.GridIndexRows | gput2/Utils.h:370-377 | after the outer cell loop every int equals the specification |
| Grid.GridIndexRow | gput2/Utils.h:372-376 | one row of cells is written after those before it |
| Camera.ScrolledZoom | gput2/Camera.h:139-147 | the zoom always ends in [1, 179]; in range, it moves by -OffsetY unless that leaves the range, where it is clamped; out of range, it snaps to the nearer bound |
| Camera.TurnedPitch | gput2/Camera.h:118-133 | unconstrained, pitch + delta; constrained, the same sum clamped to [-89, 89] |
| Camera.MovedAlongAxis | gput2/Camera.h:90-116 | each direction moves Position by ±Velocity along Front, Right or Up |
| Camera.MovedInverse | gput2/Camera.h:90-116 | a move followed by the opposite move with the same velocity returns to the start |
| Camera.MovedCompose | gput2/Camera.h:90-116 | two moves in one direction equal one move with the summed velocity |
| Camera.GCamera.constructor | gput2/Camera.h:46-74 | stores the position, world up and angles (defaults (0,0,0), (0,1,0), -90, -23); speed 5, sensitivity 0.1, zoom 45; basis vectors derived from the angles |
| Camera.GCamera.FromScalars | gput2/Camera.h:76-83 | the same from six scalars and two angles |
| Camera.GCamera.UpdateCameraVectors | gput2/Camera.h:149-159 | Front comes from Yaw and Pitch, Right from Front × WorldUp, Up from Right × Front, each normalised |
| Camera.GCamera.ProcessKeyboard | gput2/Camera.h:90-116 | Position moves by MovementSpeed·DeltaTime in the given direction; nothing else changes |
| Camera.GCamera.ProcessMouseMovement | gput2/Camera.h:118-137 | Yaw grows by OffsetX·sensitivity; Pitch is TurnedPitch of OffsetY·sensitivity; the basis is recomputed |
| Camera.GCamera.ProcessMouseScroll | gput2/Camera.h:139-147 | Zoom becomes ScrolledZoom of the old zoom, and stays in [1, 179] |
| Input.KeyStep | gput2/Main.cpp:745-785 | only presses act; Escape cycles game→menu, menu→game (re-anchoring the mouse) and demo→menu (stopping every demo); R adds 1000 to TerrainTime only in the game; H toggles help in every state; other keys change nothing |
| Input.MenuStep | gput2/Main.cpp:201-287 | outside the menu, or with no click, nothing changes; otherwise the state becomes OnDemo and the clicked demos start |
| Input.HelpToggleInvolution | gput2/Main.cpp:781-784 | pressing H twice restores every global |
| Input.EscapeRoundTrip | gput2/Main.cpp:747-767 | Escape twice from the game returns to the game with only FirstMouse set |
| Input.KeyStepConsistent | gput2/Main.cpp:745-785 | every key event keeps "a demo runs exactly in OnDemo" |
| Input.MenuStepConsistent | gput2/Main.cpp:270-284 | the demo buttons keep "a demo runs exactly in OnDemo" |
| Input.RunConsistent | gput2/Main.cpp:34-81 | from the initial globals, after any sequence of key and menu events, a demo flag is set exactly while the state is OnDemo |
| Input.NextFPSOffset | gput2/Main.cpp:941 | the next write position stays in [0, 120) and wraps from 119 to 0 |
| Input.AdvanceFPSOffset | gput2/Main.cpp:940-941 | after any number of frames the write position stays in [0, 120) |
| Input.AdvanceFPSOffsetModular | gput2/Main.cpp:940-941 | n frames advance the position by n modulo 120, so 120 frames return it to the start |
| Input.PairNet | gput2/Main.cpp:711-734 | two opposite movement keys along one axis, in either order, add up to a step scaled by their difference |
| Input.HeldPositionNet | gput2/Main.cpp:703-736 | the held keys move the camera by Front·v(W−S) + Right·v(D−A) + Up·v(E−Q), so opposite keys cancel |
| Input.Application.constructor | gput2/Main.cpp:62-81 | the globals' initial values: OnGame, FirstMouse, TerrainTime 10, help shown, no demo, FPS ring zeroed at offset 0, cursor at the screen centre, camera at (0, 12, 26) |
| Input.Application.KeyCallback | gput2/Main.cpp:745-785 | the mode globals become KeyStep of the old ones; the invariant is kept |
| Input.Application.MouseCallback | gput2/Main.cpp:795-814 | outside the game nothing changes; in the game the cursor offset since the last event (zero right after entering) turns the camera, and the last position is stored |
| Input.Application.ScrollCallback | gput2/Main.cpp:816-826 | the zoom follows ScrolledZoom in the game and is unchanged otherwise |
| Input.Application.ProcessInput | gput2/Main.cpp:703-736 | outside the game nothing changes; in the game Shift triples DeltaTime and the camera moves by the held keys |
| Input.Application.MoveCamera | gput2/Main.cpp:711-734 | the camera position becomes the W, S, A, D, E, Q moves of the held keys, in that order |
| Input.Application.ShowHelp | gput2/Main.cpp:940-941 | the frame rate is stored at the write position, which advances round the ring |
| Input.Application.Frame | gput2/Main.cpp:196-291 | the FPS ring is updated only while help is shown; the demo buttons act; DeltaTime becomes the time since the last frame |
| Input.Application.DemoButtons | gput2/Main.cpp:201-287 | the mode globals become MenuStep of the old ones; the invariant is kept |

## Left out

- Trigonometry, `glm::normalize` and `glm::cross` are uninterpreted functions in `Numerics`. No geometric fact is proved about positions or normals, such as unit length or points lying on the sphere. Only which values go where is proved.
- Floats are exact reals. Single-precision rounding is not modelled, and neither are the `(float)` casts of the `double` cursor and scroll values in `MouseCallback` and `ScrollCallback`.
- `Grid.GenerateGrid`: `glm::pow(Size, 2)` cast to `int` is modelled as the exact square `Size·Size`.
- `Grid.GenerateGrid`: requires `Vertices >= 0`. A negative count runs without error in the source: `Size = 2·Vertices + 1` is odd and negative, both sizes are squares (`2·Size²` floats and `6·(Size - 1)²` ints), so neither `new[]` throws, and the loops `i < Size` and `i < Size - 1` never run. The source then returns both buffers with none of their slots written, and `SeparationFactor = Range / Size`. That unfilled result is not modelled.
- `Grid.GenerateGrid`: requires that both `GridSize = 2·Size²` and `GridIndicesSize = 6·(Size - 1)²` fit a 32-bit `int`. Beyond that bound (from `Vertices = 9460` for the index buffer) the source's `int` arithmetic overflows, which is undefined behaviour, and the overflow path is not modelled.
- `Sphere.GenerateSphere`: requires `Segments >= 0` and either `Rings >= 2` or `Rings == 1` with no segments. Left out are these cases:
  - `Rings <= 0`: the source throws at `new float*[Rings - 1]`.
  - `Rings == 1` with `Segments > 0`: the cap loop writes past the end of the zero-length index buffer.
  - `Segments < 0`: with `Rings >= 2`, a negative `new float[Segments]` or a negative buffer size throws. With `Rings == 1` the source runs: 12 floats, no indices and no loop iterations.
- `Cylinder.GenerateCylinder`: requires `Vertices >= 0`. For a negative count the source throws `std::bad_array_new_length` at `new float[Vertices]`, and that error path is not modelled.
- `Cone.GenerateCone`: requires `Vertices >= 0`. For a negative count the source throws `std::bad_array_new_length` at `new float[Vertices]`, and that error path is not modelled.
- `Sphere.GenerateSphere`: also requires `6·(Rings - 2)` to fit a 32-bit `int`. The source computes `6 * Segments + 6 * (Rings - 2) * Segments`, and its first product `6 * (Rings - 2)` overflows from `Rings = 357913944` on, whatever `Segments` is. With `Segments == 0` this is the only bound on `Rings`; the overflowing calls are not modelled.
- Every generator requires that its buffer sizes fit a 32-bit `int`. The source computes them in `int`, and the overflow is not modelled.
- The temporary `new[]`/`delete[]` tables are fresh Dafny arrays, and the deletes are not modelled. The out-parameters by reference become return values.
- `FileToChar`, `LoadTexture` and `GetNormal` in `Utils.h` are not part of this model. Neither are `Shader.h`, `GetViewMatrix` (`glm::lookAt`) and `FramebufferSizeCallback`.
- All OpenGL, GLFW and ImGui calls are left out: drawing, `glfwSetInputMode` cursor modes, forwarding events to ImGui, and `CharacterCallback`.
- `glfwGetKey` is modelled as the set `held` of keys down at the time. The frame rate and the clock (`glfwGetTime`) are parameters.
- The GLFW key and action codes are the values defined by `glfw3.h`.
- `Input.Application.Frame` models only the state-changing parts of one iteration of the main loop: the help window's FPS update, the demo buttons and the frame time. The rest is left out: the settings window (`CameraSpeed` and the other sliders, and line 298 copying the speed into the camera), the scene drawing and the demo animations from line 300 on. It also leaves out lines 293-296, which add `DeltaTime·TerrainMotionSpeed` to `TerrainTime` when `bTerrainLiveMotion` is set. Only the settings window's checkbox turns that flag on, and that window is left out, so `Frame` keeps `TerrainTime` unchanged.
- `Input.Application.MoveCamera` and `Input.Application.DemoButtons` are parts of `ProcessInput` and of the main loop's menu block, given their own methods. Their bodies are the source's statements.
- `Input.Application.Valid` is the model's own invariant. It is the fact that the source relies on and never states: the offset stays inside the 120-slot array, and the demo flags agree with the state.
