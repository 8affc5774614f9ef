# WebGPU ray-marcher: frame packing, scene input and camera, in Dafny

This project models the CPU side of a WebGPU ray-marching renderer and proves
properties of that model:

- **Frame packing** (`renderer.dfy`, module `RayMarchingRenderer`). Each frame,
  `createScene` flattens the scene into three float arrays that it writes to
  GPU buffers:
  - a 16-float application block: camera position, light count, forward,
    sphere count, right, time, up, padding;
  - one 4-float record per light;
  - one 8-float record per sphere.

  The module also covers the byte sizes the GPU buffers are created with, and
  the order in `encodeCommands`: pack first, then update the camera, then
  dispatch one workgroup per canvas pixel.
- **Scene and input handlers** (`scene.ts` → `scene.dfy`, module `SceneModel`,
  class `Scene`):
  - the fixed construction values;
  - the drag flag, set by mouse down and cleared by mouse up;
  - mouse moves that turn yaw and pitch, but only while dragging;
  - key presses that pan the camera;
  - light inputs that edit one coordinate of the first light.
- **Camera** (`camera.ts` → `camera.dfy`, module `CameraModel`, class
  `Camera`):
  - the constructor's euler layout;
  - `pan`, along the current forward and right vectors;
  - `update`, which derives forward from the euler angles, then
    right = forward × (0,0,1) and up = right × forward;
  - `#degreesToRadians`.
- **Sphere record** (`primatives.ts` → `primitives.dfy`, module `Primitives`).
- `vectors.dfy` (module `Vectors`) holds the two gl-matrix `vec3` operations the
  camera uses, cross product and scale-and-add. It also holds the indexed read
  and write `v[i]` and `v[i] = value` of a three-element array, which the scene
  handlers use (src/scene.ts:118-119 and 132-136).

How the model is written:

- All numbers are exact reals.
- The camera and the scene are classes whose methods change their fields in
  place.
- Spheres and lights are values. `Scene.lights` and `Scene.spheres` are
  sequence fields. `UpdateLight` reassigns `lights`; no handler changes
  `spheres` after construction.
- The two packing loops are methods over arrays, with loop invariants. They
  are proved equal to the pure layout functions `LightLayout` and
  `SphereLayout`.
- Every record layout has a reader that takes the fields back out at the
  offsets the writer uses, as a reader at those offsets finds them. Lemmas
  prove that every field comes back from its offset.

Things that are parameters in the model:

- `Math.sin` and `Math.cos` are the parameters `sin` and `cos`. Nothing is
  assumed about them, so the orthogonality of the camera basis is proved for
  every pair of functions.
- `performance.now()` is the parameter `now`, so the packed time is
  `now - applicationStart`.
- DOM events become the parameters of the handler methods: key code, mouse
  movement, input id and value.

Behaviour of the code that a reader might not expect, which the model keeps:

- **Order of pack and update.** `encodeCommands`
  (src/ray-marching-renderer.ts:373-374) calls `createScene()` before
  `camera.update()`. So the basis in a frame is the one from the previous
  update, not the one this call computes (`Renderer.EncodeCommands`).
- **Sphere buffer size.** The sphere buffer is created with
  `BYTES_PER_ELEMENT * 16 /* 16 Float entires in struct*/` per sphere
  (src/ray-marching-renderer.ts:126), but `createScene` writes
  `sphereStructSize = 8` floats per sphere (src/ray-marching-renderer.ts:355).
  The buffer is twice the data written to it (`BufferWritesFit`).
- **Light buffer size.** The light buffer is created with
  `BYTES_PER_ELEMENT * 4` bytes (src/ray-marching-renderer.ts:116), room for one
  4-float record, while `createScene` writes one record per element of
  `lights`. The write fits exactly when there is at most one light
  (`BufferWritesFit`), which the scene invariant guarantees
  (`ValidSceneLightWriteFits`).
- **Yaw wrapping.** `#handleMouseEvent` wraps yaw with JavaScript's `% 360`
  (src/scene.ts:118), which truncates toward zero and keeps the sign of its
  left operand: -400 wraps to -40, not 320 (`Rem360Examples`).
- **`pan` arguments.** `Camera.pan(dx, dy)` takes two parameters
  (src/camera.ts:29). The E and Q keys call it with a third argument
  (src/scene.ts:94 and 97) and zeros for the first two, so those keys do not
  move the camera.
- **Degrees to radians.** `#degreesToRadians` returns
  `degrees * 180.0 / Math.PI` (src/camera.ts:44), which is the conversion from
  radians to degrees, not the one its name says. The model keeps it as
  written. Since `sin` and `cos` are uninterpreted, no proved property depends
  on it.

## Model

| member | source | states |
|---|---|---|
| `Vectors.CrossOrthogonal` | src/camera.ts:25-26 | the vector `vec3.cross` writes is orthogonal to both of its operands |
| `CameraModel.DegreesToRadiansLinear` | src/camera.ts:43-45 | the conversion (as written, d·180/π) maps 0 to 0, is additive, and commutes with scaling |
| `CameraModel.BasisOrthogonal` | src/camera.ts:19-27 | for any sin/cos, the basis `update` computes has right.z = 0, right·forward = 0, up·right = 0, up·forward = 0 |
| `Vectors.ScaleAndAddZero` | src/camera.ts:31-34 | `vec3.scaleAndAdd` by 0 leaves its first operand unchanged |
| `Vectors.ScaleAndAddTwice` | src/camera.ts:31-40 | two `vec3.scaleAndAdd` steps along the same vector equal one step by the summed scales |
| `Vectors.ScaleAndAddCommute` | src/camera.ts:31-40 | two `vec3.scaleAndAdd` steps along different vectors can be taken in either order |
| `CameraModel.BasisLengths` | src/camera.ts:19-27 | assuming sin² + cos² = 1 for every angle, forward has length 1, and right and up, which `update` does not normalise, both have squared length cos²(pitch) |
| `CameraModel.PanZero` | src/camera.ts:29-41 | panning by (0, 0) leaves the position where it was |
| `CameraModel.PanCompose` | src/camera.ts:29-41 | two pans with an unchanged basis equal one pan by the summed deltas |
| `CameraModel.Camera.constructor` | src/camera.ts:10-17 | position stored as given, euler = [0, verticalRotation, horizontalRotation], basis = the one `update` derives from euler |
| `CameraModel.Camera.Update` | src/camera.ts:19-27 | the basis becomes forward from (yaw, pitch), right = forward × (0,0,1), up = right × forward, so the three are pairwise orthogonal and right.z = 0; only forward, right and up may change |
| `CameraModel.Camera.Pan` | src/camera.ts:29-41 | position becomes old position + dx·forward + dy·right, componentwise; only position may change |
| `Vectors.With` | src/scene.ts:131-137 | an indexed write `v[i] = value` sets component i and keeps the other two |
| `Primitives.NewSphere` | src/primatives.ts:10-15 | center, radius and color stored exactly as given, padding 0, and no input is rejected |
| `SceneModel.NewLight` | src/scene.ts:10-13 | position stored as given, padding 0 |
| `SceneModel.TruncQuotient360` | src/scene.ts:118 | the quotient by 360 rounded toward zero: 360·q and a lie less than 360 apart, on the same side of zero |
| `SceneModel.Rem360` | src/scene.ts:118 | JavaScript `a % 360`: the result lies strictly within ±360, has the sign of a, differs from a by a whole multiple of 360, and equals a when \|a\| < 360 |
| `SceneModel.Rem360Examples` | src/scene.ts:118 | 400 wraps to 40, -400 wraps to -40, 720 wraps to 0 |
| `SceneModel.ClampPitch` | src/scene.ts:119-125 | the result lies in [-89, 89], equals the input inside that range, and is the nearer bound outside it |
| `SceneModel.ClampPitchPinned` | src/scene.ts:119-125 | a pitch at a bound that is pushed further past that bound stays at the bound |
| `SceneModel.Scene.constructor` | src/scene.ts:23-57 | one sphere ((0,3,0), radius 1.1, color (0,0.5,0.8), padding 0), the camera at (-10,0,0) with euler (0,0,0), one light at (11,-15,-12) with padding 0, not dragging; the scene invariant holds |
| `SceneModel.Scene.HandleKeyDown` | src/scene.ts:78-99 | KeyW pans by (0.4, 0), KeyS by (-0.4, 0), KeyA by (0, -0.4), KeyD by (0, 0.4); every other code, KeyE and KeyQ included, leaves the position unchanged; only the camera position may change |
| `SceneModel.Scene.HandleMouseDown` | src/scene.ts:101-103 | the drag flag becomes true and nothing else changes |
| `SceneModel.Scene.HandleMouseUp` | src/scene.ts:105-107 | the drag flag becomes false and nothing else changes |
| `SceneModel.Scene.HandleMouseMove` | src/scene.ts:109-126 | when not dragging, euler is unchanged; when dragging, yaw becomes Rem360(yaw + movementX/40000) and pitch becomes ClampPitch(pitch + movementY/40000), so pitch is in [-89, 89] and \|yaw\| < 360; euler[0] and everything else are unchanged; the scene invariant is kept |
| `SceneModel.Scene.UpdateLight` | src/scene.ts:128-138 | lightX/lightY/lightZ set coordinate 0/1/2 of lights[0].position and nothing else; any other id changes nothing; only a known id needs a light to exist |
| `RayMarchingRenderer.Flatten` | src/ray-marching-renderer.ts:319-341 | the application block written to the uniform buffer has exactly 16 entries |
| `RayMarchingRenderer.ApplicationDataRoundTrip` | src/ray-marching-renderer.ts:307-341 | reading the block at the field offsets (position 0-2, light count 3, forward 4-6, sphere count 7, right 8-10, time 11, up 12-14, padding 15) gives back every field of the packed record |
| `RayMarchingRenderer.ApplicationBlockRoundTrip` | src/ray-marching-renderer.ts:319-341 | every 16-float block is the packing of the record read from it: the layout has no hole and no overlap |
| `RayMarchingRenderer.SphereCountChangesOnlyItsEntry` | src/ray-marching-renderer.ts:307-339 | changing only the sphere count changes entry 7 alone; the camera entries are unaffected |
| `RayMarchingRenderer.LightRecord` | src/ray-marching-renderer.ts:344-350 | a light record is 4 floats |
| `RayMarchingRenderer.LightLayout` | src/ray-marching-renderer.ts:344-351 | the light data has exactly 4·#lights entries |
| `RayMarchingRenderer.LightLayoutAt` | src/ray-marching-renderer.ts:346-351 | entry 4i+k of the light data is field k (position.xyz, padding) of light i |
| `RayMarchingRenderer.LightRoundTrip` | src/ray-marching-renderer.ts:346-351 | light i, padding included, is recovered from entries 4i..4i+3 |
| `RayMarchingRenderer.SphereRecord` | src/ray-marching-renderer.ts:355-366 | a sphere record is 8 floats |
| `RayMarchingRenderer.SphereLayout` | src/ray-marching-renderer.ts:355-366 | the sphere data has exactly 8·#spheres entries |
| `RayMarchingRenderer.SphereLayoutAt` | src/ray-marching-renderer.ts:357-366 | entry 8i+k of the sphere data is field k (center.xyz, radius, color.xyz, padding) of sphere i |
| `RayMarchingRenderer.SphereRoundTrip` | src/ray-marching-renderer.ts:357-366 | sphere i, padding included, is recovered from entries 8i..8i+7 |
| `RayMarchingRenderer.NewSphereRecord` | src/primatives.ts:3-15 | a constructed sphere serialises as center.xyz, radius, color.xyz, 0 (e.g. [1,2,3,4,0.1,0.2,0.3,0]); its 8 scalars are 32 bytes |
| `RayMarchingRenderer.BufferWritesFit` | src/ray-marching-renderer.ts:104-131 | the application buffer is 64 bytes (a multiple of 16) and the block fills it exactly; the sphere buffer is twice the sphere write, so that write always fits; the light write fits iff there is at most one light |
| `RayMarchingRenderer.ValidSceneLightWriteFits` | src/ray-marching-renderer.ts:114-118 | a scene that keeps its invariant (one light) writes exactly the 16 bytes the light buffer holds |
| `RayMarchingRenderer.InitialSceneData` | src/scene.ts:25-55 | for the fixed scene the sphere data is [0,3,0,1.1,0,0.5,0.8,0], the light data is [11,-15,-12,0], and the light write fits its buffer |
| `RayMarchingRenderer.LightRecordSlice` | src/ray-marching-renderer.ts:346-351 | entries 4i..4i+3 of the light data are exactly light i's record |
| `RayMarchingRenderer.SphereRecordSlice` | src/ray-marching-renderer.ts:357-366 | entries 8i..8i+7 of the sphere data are exactly sphere i's record |
| `RayMarchingRenderer.WriteLightRecord` | src/ray-marching-renderer.ts:347-350 | the four indexed writes of one iteration put light i's record at 4i..4i+3 and leave every other entry (before 4i and from 4i+4 on) as it was |
| `RayMarchingRenderer.WriteSphereRecord` | src/ray-marching-renderer.ts:358-365 | the eight indexed writes of one iteration put sphere i's record at 8i..8i+7 and leave every other entry (before 8i and from 8i+8 on) as it was |
| `RayMarchingRenderer.PackLights` | src/ray-marching-renderer.ts:344-352 | the loop's Float32Array equals LightLayout of the lights |
| `RayMarchingRenderer.PackSpheres` | src/ray-marching-renderer.ts:355-368 | the loop's Float32Array equals SphereLayout of the spheres |
| `RayMarchingRenderer.Renderer.constructor` | src/ray-marching-renderer.ts:38-42 | keeps the canvas size and scene, and records the start time |
| `RayMarchingRenderer.Renderer.CreateScene` | src/ray-marching-renderer.ts:305-369 | the three payloads are the packing of (position, #lights, forward, #spheres, right, now − start, up, 0), LightLayout(lights) and SphereLayout(spheres); the scene is not changed |
| `RayMarchingRenderer.Renderer.EncodeCommands` | src/ray-marching-renderer.ts:372-382 | the frame packs the basis from before this call's update; afterwards the basis is the one derived from euler; the dispatch is (canvas width, canvas height, 1), that is width·height workgroups |

## Left out

- `CameraModel.BasisOrthogonal`, `CameraModel.Camera.Update`: unit length is not claimed. `forward` is unit only given sin² + cos² = 1, which the uninterpreted sin and cos do not provide. `right` and `up` are never normalised (src/camera.ts:25-26), and even with that identity their squared length is cos²(pitch), so they are unit only when cos(pitch) = ±1. `CameraModel.BasisLengths` proves these lengths under the identity.
- `SceneModel.Rem360`: NaN and ±Infinity, for which JavaScript's `%` gives NaN, are not modelled. Numbers are reals.
- GPU device and adapter acquisition; creation of textures, samplers, bind groups and pipelines; `writeBuffer`; command encoding and submission. These are foreign WebGPU calls. Only the byte sizes, the written payloads and the dispatch arguments are kept.
- The validation error WebGPU raises when a light write exceeds its buffer. `BufferWritesFit` states only when the write fits.
- The per-frame reassignment of `colorTexture`/`colorTextureView`, the `requestAnimationFrame` loop and the render-time display. These are DOM and GPU glue.
- Float32 and float64 rounding. All values are exact reals.
- `RayMarchingRenderer.Renderer`: the canvas size is taken as fixed at construction (`canvasWidth`, `canvasHeight`). The TypeScript `Renderer` keeps the canvas object and reads `this.canvas.width` and `this.canvas.height` at every dispatch (src/ray-marching-renderer.ts:382). No modelled code resizes the canvas.
- Registering the DOM listeners and initialising the HTML light inputs.
- `SceneModel.Scene.UpdateLight`: the value is a real. `#updateLight` stores the input's raw string `event.target.value` into `lights[0].position[k]` (src/scene.ts:130-136). The string becomes a number only when `createScene` stores it into the `Float32Array` (src/ray-marching-renderer.ts:347-349), where `""` gives 0 and non-numeric text gives NaN. Strings in the position and that conversion are not modelled.
- The random sphere scatter in the `Scene` constructor. Its loop runs from 1 to the array length, which is 1, so it never executes, and `Math.random` is not modelled.
- Aliasing of `Light` and `Sphere` objects. Each one is referenced only by its scene, so they are modelled as values.
- The shaders, and `src/main.ts` (startup glue that imports a renderer not among the modelled files).
