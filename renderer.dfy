/** The CPU side of src/ray-marching-renderer.ts: the wire layout of the three
    buffers the compute shader reads (the 16-float application block, one
    4-float record per light, one 8-float record per sphere), the byte sizes the
    buffers are created with, and the per-frame order "pack the scene, then
    update the camera, then dispatch one workgroup per pixel".

    The GPU calls themselves (buffer creation, `writeBuffer`, passes, submit)
    are not modelled: a frame is the three float sequences handed to
    `writeBuffer`, and the dispatch is its three workgroup counts. */
module RayMarchingRenderer {
  import opened Vectors
  import opened Primitives
  import opened CameraModel
  import opened SceneModel

  /** Float32Array.BYTES_PER_ELEMENT */
  const FloatBytes: nat := 4

  /** Floats in the application block, and the byte size its buffer is created with. */
  const ApplicationDataFloats: nat := 16
  const ApplicationBufferBytes: nat := FloatBytes * 16

  /** Floats per light record, and the byte size the light buffer is created
      with: room for exactly one record. */
  const LightStructSize: nat := 4
  const LightBufferBytes: nat := FloatBytes * 4

  /** Floats per sphere record. */
  const SphereStructSize: nat := 8

  /** The byte size the sphere buffer is created with: 16 floats per sphere,
      twice the record the packer writes. */
  function SphereBufferBytes(sphereCount: nat): nat
  {
    FloatBytes * 16 * sphereCount
  }

  // ---------------------------------------------------------------------------
  // The application (uniform) block

  /** The `applicationData` object of `createScene`, field by field. */
  datatype ApplicationData = ApplicationData(
    cameraPosition: Vec3, lightCount: real,
    cameraForward: Vec3, sphereCount: real,
    cameraRight: Vec3, time: real,
    cameraUp: Vec3, padding1: real)

  /** The Float32Array written to the application buffer: four rows of a vec3
      followed by one scalar. */
  function Flatten(d: ApplicationData): (block: seq<real>)
    ensures |block| == ApplicationDataFloats
  {
    [d.cameraPosition.x, d.cameraPosition.y, d.cameraPosition.z, d.lightCount,
     d.cameraForward.x, d.cameraForward.y, d.cameraForward.z, d.sphereCount,
     d.cameraRight.x, d.cameraRight.y, d.cameraRight.z, d.time,
     d.cameraUp.x, d.cameraUp.y, d.cameraUp.z, d.padding1]
  }

  /** Offsets of the fields in the block, as a reader of the buffer finds them. */
  const PositionOffset: nat := 0
  const LightCountOffset: nat := 3
  const ForwardOffset: nat := 4
  const SphereCountOffset: nat := 7
  const RightOffset: nat := 8
  const TimeOffset: nat := 11
  const UpOffset: nat := 12
  const PaddingOffset: nat := 15

  function ReadVec3(block: seq<real>, offset: nat): Vec3
    requires offset + 3 <= |block|
  {
    Vec3(block[offset], block[offset + 1], block[offset + 2])
  }

  /** The block read back field by field at the offsets above. */
  function ReadApplicationData(block: seq<real>): ApplicationData
    requires |block| == ApplicationDataFloats
  {
    ApplicationData(
      ReadVec3(block, PositionOffset), block[LightCountOffset],
      ReadVec3(block, ForwardOffset), block[SphereCountOffset],
      ReadVec3(block, RightOffset), block[TimeOffset],
      ReadVec3(block, UpOffset), block[PaddingOffset])
  }

  /** Every field of the block is found at its offset. */
  lemma ApplicationDataRoundTrip(d: ApplicationData)
    ensures ReadApplicationData(Flatten(d)) == d
  {
  }

  /** The layout has no hole and no overlap: every 16-float block is the
      flattening of the record read from it. */
  lemma ApplicationBlockRoundTrip(block: seq<real>)
    requires |block| == ApplicationDataFloats
    ensures Flatten(ReadApplicationData(block)) == block
  {
    var b := Flatten(ReadApplicationData(block));
    assert forall i :: 0 <= i < 16 ==> b[i] == block[i];
  }

  /** Changing only the sphere count changes only entry 7; in particular the
      camera entries stay as they were. */
  lemma SphereCountChangesOnlyItsEntry(d: ApplicationData, count: real)
    ensures Flatten(d.(sphereCount := count))[SphereCountOffset] == count
    ensures forall i :: 0 <= i < ApplicationDataFloats && i != SphereCountOffset ==>
              Flatten(d.(sphereCount := count))[i] == Flatten(d)[i]
  {
  }

  // ---------------------------------------------------------------------------
  // Lights

  /** One light as written: position.xyz, padding. */
  function LightRecord(l: Light): (r: seq<real>)
    ensures |r| == LightStructSize
  {
    [l.position.x, l.position.y, l.position.z, l.padding]
  }

  /** The light data: the records one after another, LightStructSize apart. */
  function LightLayout(lights: seq<Light>): (data: seq<real>)
    ensures |data| == LightStructSize * |lights|
  {
    if lights == [] then [] else LightRecord(lights[0]) + LightLayout(lights[1..])
  }

  /** Entry k of record i sits at index 4i + k. */
  lemma {:induction false} LightLayoutAt(lights: seq<Light>, i: nat, k: nat)
    requires i < |lights| && k < LightStructSize
    ensures LightLayout(lights)[LightStructSize * i + k] == LightRecord(lights[i])[k]
  {
    if i > 0 {
      LightLayoutAt(lights[1..], i - 1, k);
    }
  }

  /** Light i read back from the light data. */
  function ReadLight(data: seq<real>, i: nat): Light
    requires LightStructSize * i + LightStructSize <= |data|
  {
    var o := LightStructSize * i;
    Light(Vec3(data[o], data[o + 1], data[o + 2]), data[o + 3])
  }

  /** Every light is recovered from its record, padding included. */
  lemma {:induction false} LightRoundTrip(lights: seq<Light>, i: nat)
    requires i < |lights|
    ensures ReadLight(LightLayout(lights), i) == lights[i]
  {
    LightLayoutAt(lights, i, 0);
    LightLayoutAt(lights, i, 1);
    LightLayoutAt(lights, i, 2);
    LightLayoutAt(lights, i, 3);
  }

  // ---------------------------------------------------------------------------
  // Spheres

  /** One sphere as written: center.xyz, radius, color.xyz, padding. */
  function SphereRecord(s: Sphere): (r: seq<real>)
    ensures |r| == SphereStructSize
  {
    [s.center.x, s.center.y, s.center.z, s.radius, s.color.x, s.color.y, s.color.z, s.padding]
  }

  /** The sphere data: the records one after another, SphereStructSize apart. */
  function SphereLayout(spheres: seq<Sphere>): (data: seq<real>)
    ensures |data| == SphereStructSize * |spheres|
  {
    if spheres == [] then [] else SphereRecord(spheres[0]) + SphereLayout(spheres[1..])
  }

  /** Entry k of record i sits at index 8i + k. */
  lemma {:induction false} SphereLayoutAt(spheres: seq<Sphere>, i: nat, k: nat)
    requires i < |spheres| && k < SphereStructSize
    ensures SphereLayout(spheres)[SphereStructSize * i + k] == SphereRecord(spheres[i])[k]
  {
    if i > 0 {
      SphereLayoutAt(spheres[1..], i - 1, k);
    }
  }

  /** Sphere i read back from the sphere data. */
  function ReadSphere(data: seq<real>, i: nat): Sphere
    requires SphereStructSize * i + SphereStructSize <= |data|
  {
    var o := SphereStructSize * i;
    Sphere(Vec3(data[o], data[o + 1], data[o + 2]), data[o + 3],
           Vec3(data[o + 4], data[o + 5], data[o + 6]), data[o + 7])
  }

  /** Every sphere is recovered from its record, padding included. */
  lemma {:induction false} SphereRoundTrip(spheres: seq<Sphere>, i: nat)
    requires i < |spheres|
    ensures ReadSphere(SphereLayout(spheres), i) == spheres[i]
  {
    var data, o, r := SphereLayout(spheres), SphereStructSize * i, SphereRecord(spheres[i]);
    SphereLayoutAt(spheres, i, 0);
    SphereLayoutAt(spheres, i, 1);
    SphereLayoutAt(spheres, i, 2);
    SphereLayoutAt(spheres, i, 3);
    SphereLayoutAt(spheres, i, 4);
    SphereLayoutAt(spheres, i, 5);
    SphereLayoutAt(spheres, i, 6);
    SphereLayoutAt(spheres, i, 7);
    assert data[o..o + SphereStructSize] == r;
  }

  /** A constructed sphere is serialised as its arguments followed by a zero:
      Sphere{(1,2,3), 4, (0.1,0.2,0.3)} gives [1, 2, 3, 4, 0.1, 0.2, 0.3, 0]. The
      eight scalars are 32 bytes. */
  lemma NewSphereRecord(center: Vec3, radius: real, color: Vec3)
    ensures SphereRecord(NewSphere(center, radius, color))
         == [center.x, center.y, center.z, radius, color.x, color.y, color.z, 0.0]
    ensures SphereRecord(NewSphere(Vec3(1.0, 2.0, 3.0), 4.0, Vec3(0.1, 0.2, 0.3)))
         == [1.0, 2.0, 3.0, 4.0, 0.1, 0.2, 0.3, 0.0]
    ensures FloatBytes * SphereStructSize == 32
  {
  }

  // ---------------------------------------------------------------------------
  // Buffer sizes

  /** The application buffer is 64 bytes, a multiple of 16 and at least 64, and
      the block fills it exactly. The sphere buffer holds twice what is
      written to it, so that write always fits. The light buffer holds one
      record, so the light write fits exactly when there is at most one light. */
  lemma BufferWritesFit(d: ApplicationData, spheres: seq<Sphere>, lights: seq<Light>)
    ensures ApplicationBufferBytes == 64 && ApplicationBufferBytes % 16 == 0
    ensures FloatBytes * |Flatten(d)| == ApplicationBufferBytes
    ensures 2 * (FloatBytes * |SphereLayout(spheres)|) == SphereBufferBytes(|spheres|)
    ensures FloatBytes * |SphereLayout(spheres)| <= SphereBufferBytes(|spheres|)
    ensures FloatBytes * |LightLayout(lights)| <= LightBufferBytes <==> |lights| <= 1
  {
  }

  /** The scene invariant keeps exactly one light, so a valid scene's light
      write always fits the one-record light buffer, and fills it exactly. */
  lemma ValidSceneLightWriteFits(scene: Scene)
    requires scene.Valid()
    ensures FloatBytes * |LightLayout(scene.lights)| == LightBufferBytes
  {
  }

  // ---------------------------------------------------------------------------
  // The frame

  /** Record i occupies entries 4i .. 4i+3 of the light data. */
  lemma {:induction false} LightRecordSlice(lights: seq<Light>, i: nat)
    requires i < |lights|
    ensures LightLayout(lights)[LightStructSize * i .. LightStructSize * i + LightStructSize]
         == LightRecord(lights[i])
  {
    LightLayoutAt(lights, i, 0);
    LightLayoutAt(lights, i, 1);
    LightLayoutAt(lights, i, 2);
    LightLayoutAt(lights, i, 3);
  }

  /** The four indexed writes of one iteration of the light loop. */
  method WriteLightRecord(lightData: array<real>, i: nat, l: Light)
    requires LightStructSize * i + LightStructSize <= lightData.Length
    modifies lightData
    ensures lightData[LightStructSize * i .. LightStructSize * i + LightStructSize] == LightRecord(l)
    ensures forall j :: 0 <= j < LightStructSize * i ==> lightData[j] == old(lightData[j])
    ensures forall j :: LightStructSize * i + LightStructSize <= j < lightData.Length ==>
              lightData[j] == old(lightData[j])
  {
    lightData[LightStructSize * i] := l.position.x;
    lightData[LightStructSize * i + 1] := l.position.y;
    lightData[LightStructSize * i + 2] := l.position.z;
    lightData[LightStructSize * i + 3] := l.padding;
  }

  /** The light loop of `createScene`: a Float32Array of LightStructSize
      floats per light, record i written at 4i .. 4i+3. */
  method PackLights(lights: seq<Light>) returns (data: seq<real>)
    ensures data == LightLayout(lights)
  {
    ghost var layout := LightLayout(lights);
    var lightData := new real[LightStructSize * |lights|];
    for i := 0 to |lights|
      invariant lightData[..LightStructSize * i] == layout[..LightStructSize * i]
    {
      ghost var o := LightStructSize * i;
      ghost var done := lightData[..o];
      WriteLightRecord(lightData, i, lights[i]);
      assert lightData[..o] == done;
      LightRecordSlice(lights, i);
      assert lightData[..o + LightStructSize] == lightData[..o] + lightData[o..o + LightStructSize];
      assert layout[..o + LightStructSize] == layout[..o] + layout[o..o + LightStructSize];
    }
    assert lightData[..] == lightData[..LightStructSize * |lights|];
    assert layout == layout[..LightStructSize * |lights|];
    data := lightData[..];
  }

  /** Record i occupies entries 8i .. 8i+7 of the sphere data. */
  lemma {:induction false} SphereRecordSlice(spheres: seq<Sphere>, i: nat)
    requires i < |spheres|
    ensures SphereLayout(spheres)[SphereStructSize * i .. SphereStructSize * i + SphereStructSize]
         == SphereRecord(spheres[i])
  {
    SphereLayoutAt(spheres, i, 0);
    SphereLayoutAt(spheres, i, 1);
    SphereLayoutAt(spheres, i, 2);
    SphereLayoutAt(spheres, i, 3);
    SphereLayoutAt(spheres, i, 4);
    SphereLayoutAt(spheres, i, 5);
    SphereLayoutAt(spheres, i, 6);
    SphereLayoutAt(spheres, i, 7);
  }

  /** The eight indexed writes of one iteration of the sphere loop. */
  method WriteSphereRecord(sphereData: array<real>, i: nat, s: Sphere)
    requires SphereStructSize * i + SphereStructSize <= sphereData.Length
    modifies sphereData
    ensures sphereData[SphereStructSize * i .. SphereStructSize * i + SphereStructSize] == SphereRecord(s)
    ensures forall j :: 0 <= j < SphereStructSize * i ==> sphereData[j] == old(sphereData[j])
    ensures forall j :: SphereStructSize * i + SphereStructSize <= j < sphereData.Length ==>
              sphereData[j] == old(sphereData[j])
  {
    sphereData[SphereStructSize * i] := s.center.x;
    sphereData[SphereStructSize * i + 1] := s.center.y;
    sphereData[SphereStructSize * i + 2] := s.center.z;
    sphereData[SphereStructSize * i + 3] := s.radius;
    sphereData[SphereStructSize * i + 4] := s.color.x;
    sphereData[SphereStructSize * i + 5] := s.color.y;
    sphereData[SphereStructSize * i + 6] := s.color.z;
    sphereData[SphereStructSize * i + 7] := s.padding;
  }

  /** The sphere loop of `createScene`: a Float32Array of SphereStructSize
      floats per sphere, record i written at 8i .. 8i+7. */
  method PackSpheres(spheres: seq<Sphere>) returns (data: seq<real>)
    ensures data == SphereLayout(spheres)
  {
    ghost var layout := SphereLayout(spheres);
    var sphereData := new real[SphereStructSize * |spheres|];
    for i := 0 to |spheres|
      invariant sphereData[..SphereStructSize * i] == layout[..SphereStructSize * i]
    {
      ghost var o := SphereStructSize * i;
      ghost var done := sphereData[..o];
      WriteSphereRecord(sphereData, i, spheres[i]);
      assert sphereData[..o] == done;
      SphereRecordSlice(spheres, i);
      assert sphereData[..o + SphereStructSize] == sphereData[..o] + sphereData[o..o + SphereStructSize];
      assert layout[..o + SphereStructSize] == layout[..o] + layout[o..o + SphereStructSize];
    }
    assert sphereData[..] == sphereData[..SphereStructSize * |spheres|];
    assert layout == layout[..SphereStructSize * |spheres|];
    data := sphereData[..];
  }

  /** What the first frame carries for the fixed scene: the sphere record
      starts with the center's x (0), and the single light's record fits the
      light buffer. */
  lemma InitialSceneData()
    ensures SphereLayout([NewSphere(Vec3(0.0, 3.0, 0.0), 1.1, Vec3(0.0, 0.5, 0.8))])
         == [0.0, 3.0, 0.0, 1.1, 0.0, 0.5, 0.8, 0.0]
    ensures LightLayout([NewLight(Vec3(11.0, -15.0, -12.0))]) == [11.0, -15.0, -12.0, 0.0]
    ensures FloatBytes * |LightLayout([NewLight(Vec3(11.0, -15.0, -12.0))])| <= LightBufferBytes
  {
  }

  /** The three payloads `createScene` hands to `writeBuffer`. */
  datatype Frame = Frame(applicationData: seq<real>, lightData: seq<real>, sphereData: seq<real>)

  /** Workgroup counts of `dispatchWorkgroups(x, y, z)`. */
  datatype Dispatch = Dispatch(x: nat, y: nat, z: nat)

  class Renderer {
    const canvasWidth: nat
    const canvasHeight: nat
    const scene: Scene
    /** `performance.now()` when the renderer was constructed. */
    const applicationStart: real

    /** The clock is a parameter: `now` stands for `performance.now()`. */
    constructor (canvasWidth: nat, canvasHeight: nat, scene: Scene, now: real)
      ensures this.canvasWidth == canvasWidth && this.canvasHeight == canvasHeight
      ensures this.scene == scene && applicationStart == now
    {
      this.canvasWidth := canvasWidth;
      this.canvasHeight := canvasHeight;
      this.scene := scene;
      applicationStart := now;
    }

    /** `createScene`: packs the camera and the counts into the application
        block, each light into a 4-float record and each sphere into an
        8-float record. Nothing in the scene changes. */
    method CreateScene(now: real) returns (frame: Frame)
      ensures frame.applicationData ==
        Flatten(ApplicationData(scene.camera.position, |scene.lights| as real,
                                scene.camera.forward, |scene.spheres| as real,
                                scene.camera.right, now - applicationStart,
                                scene.camera.up, 0.0))
      ensures frame.lightData == LightLayout(scene.lights)
      ensures frame.sphereData == SphereLayout(scene.spheres)
    {
      var camera := scene.camera;
      var applicationData := ApplicationData(
        camera.position, |scene.lights| as real,
        camera.forward, |scene.spheres| as real,
        camera.right, now - applicationStart,
        camera.up, 0.0);
      var block := Flatten(applicationData);

      var lightData := PackLights(scene.lights);
      var sphereData := PackSpheres(scene.spheres);
      frame := Frame(block, lightData, sphereData);
    }

    /** `encodeCommands`: pack the scene first, then update the camera, then
        dispatch one workgroup per pixel. The packed basis is therefore the one
        left by the previous update, not the one this call computes. */
    method EncodeCommands(now: real, sin: real -> real, cos: real -> real)
      returns (frame: Frame, dispatch: Dispatch)
      modifies scene.camera`forward, scene.camera`right, scene.camera`up
      ensures frame.applicationData ==
        Flatten(ApplicationData(scene.camera.position, |scene.lights| as real,
                                old(scene.camera.forward), |scene.spheres| as real,
                                old(scene.camera.right), now - applicationStart,
                                old(scene.camera.up), 0.0))
      ensures frame.lightData == LightLayout(scene.lights)
      ensures frame.sphereData == SphereLayout(scene.spheres)
      ensures scene.camera.CurrentBasis() == BasisOf(scene.camera.euler, sin, cos)
      ensures dispatch == Dispatch(canvasWidth, canvasHeight, 1)
      ensures dispatch.x * dispatch.y * dispatch.z == canvasWidth * canvasHeight
    {
      frame := CreateScene(now);
      scene.camera.Update(sin, cos);
      dispatch := Dispatch(canvasWidth, canvasHeight, 1);
    }
  }
}
