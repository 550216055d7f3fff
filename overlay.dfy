/**
  The camera configuration and the per-buffer annotation probe of the
  real-world overlay application (apps/main.cpp).

  The probe walks every frame of a detection batch and every object of each
  frame, projects the centre of the object's bounding box onto the ground,
  and overwrites the object's display text with the resulting position.
 */
module Overlay {
  import Projection

  /** A value that may be absent: the batch metadata attached to a buffer. */
  datatype Option<T> = None | Some(value: T)

  /** Camera parameters handed to the probe as read-only user data. The
      rotation and the height of the camera are carried but never used by
      the projection. */
  datatype CameraConfig = CameraConfig(
    width: int, height: int,
    posX: real, posY: real, posZ: real,
    rotX: real, rotY: real, rotZ: real,
    fovX: real, fovY: real)

  /** What the probe needs of a configuration: a non-empty image. */
  predicate ResolutionPositive(cfg: CameraConfig) {
    cfg.width > 0 && cfg.height > 0
  }

  /** The configuration the application installs: a 3848 x 2168 image, the
      camera 0.75 m along x, and a ground extent of about 1.0 m x 0.66 m. */
  function DefaultConfig(): (cfg: CameraConfig)
    ensures ResolutionPositive(cfg)
    ensures cfg.fovX > 0.0 && cfg.fovY > 0.0
  {
    CameraConfig(
      3848, 2168,
      0.750, 0.0, 0.0,
      0.0, 180.0, -90.0,
      0.99788205886, 0.65877955059)
  }

  /** The value a pad probe hands back to the streaming runtime. */
  datatype PadProbeReturn = Drop | Ok | Remove | Pass | Handled

  /** A bounding box in pixel units: its left and top edges, width and height. */
  datatype Rect = Rect(left: real, top: real, width: real, height: real)

  /** An object's display text. `Position(x, y)` stands for the text
      "X:<x> Y:<y>" with both numbers rendered to two decimals; `Text` is any
      other text an upstream element may have attached; `Empty` is no text. */
  datatype DisplayText = Empty | Text(chars: string) | Position(x: real, y: real)

  /** The metadata of one detected object. */
  class ObjectMeta {
    var rect: Rect
    var displayText: DisplayText

    constructor (rect: Rect)
      ensures this.rect == rect && displayText == Empty
    {
      this.rect := rect;
      displayText := Empty;
    }
  }

  /** The metadata of one frame: the objects detected in it, in detection order. */
  class FrameMeta {
    var objects: seq<ObjectMeta>

    constructor (objects: seq<ObjectMeta>)
      ensures this.objects == objects
    {
      this.objects := objects;
    }
  }

  /** The metadata of one batch: its frames, in delivery order. */
  class BatchMeta {
    var frames: seq<FrameMeta>

    constructor (frames: seq<FrameMeta>)
      ensures this.frames == frames
    {
      this.frames := frames;
    }
  }

  /** Every object of every frame of the batch. */
  ghost function Objects(batch: BatchMeta): set<ObjectMeta>
    reads batch, batch.frames
  {
    set f, o | f in batch.frames && o in f.objects :: o
  }

  /** The centre of a bounding box: half its width right of its left edge and
      half its height below its top edge. */
  function Centre(r: Rect): (c: (real, real))
    ensures c.0 - r.left == r.left + r.width - c.0
    ensures c.1 - r.top == r.top + r.height - c.1
  {
    (r.left + r.width / 2.0, r.top + r.height / 2.0)
  }

  /** The label the probe gives an object with bounding box r: the ground
      position of the box's centre, projected against the configured
      resolution, field of view and camera ground position. */
  function WorldLabel(r: Rect, cfg: CameraConfig): (t: DisplayText)
    requires ResolutionPositive(cfg)
    ensures t.Position?
    ensures t.x - cfg.posX
            == (r.left + r.width / 2.0 - cfg.width as real / 2.0) * cfg.fovX / cfg.width as real
    ensures t.y - cfg.posY
            == (r.top + r.height / 2.0 - cfg.height as real / 2.0) * cfg.fovY / cfg.height as real
  {
    var c := Centre(r);
    var w := Projection.ImageToWorld(c.0, c.1, cfg.width, cfg.height,
                                     cfg.fovX, cfg.fovY, cfg.posX, cfg.posY);
    Position(w.0, w.1)
  }

  /** The pad probe. An absent batch is passed on untouched. Otherwise every
      object of every frame is labelled with the ground position of its box
      centre; no box, no frame list and no object list changes, and the
      probe always lets the buffer through. */
  method OsdSinkPadBufferProbe(batchMeta: Option<BatchMeta>, cfg: CameraConfig)
      returns (ret: PadProbeReturn)
    requires ResolutionPositive(cfg)
    modifies if batchMeta.Some? then Objects(batchMeta.value) else {}
    ensures ret == Ok
    ensures batchMeta.Some? ==>
      var batch := batchMeta.value;
      && batch.frames == old(batch.frames)
      && (forall f :: f in batch.frames ==> f.objects == old(f.objects))
      && (forall o :: o in Objects(batch) ==>
            o.rect == old(o.rect) && o.displayText == WorldLabel(o.rect, cfg))
  {
    if batchMeta.None? {
      return Ok;
    }
    var batch := batchMeta.value;
    var frames := batch.frames;
    ghost var done: set<ObjectMeta> := {};
    for i := 0 to |frames|
      invariant forall o :: o in Objects(batch) ==> o.rect == old(o.rect)
      invariant forall o :: o in done ==> o.displayText == WorldLabel(o.rect, cfg)
      invariant forall o :: o in Objects(batch) && o !in done ==> o.displayText == old(o.displayText)
      invariant forall k, o :: 0 <= k < i && o in frames[k].objects ==> o in done
    {
      var frame := frames[i];
      var objects := frame.objects;
      for j := 0 to |objects|
        invariant forall o :: o in Objects(batch) ==> o.rect == old(o.rect)
        invariant forall o :: o in done ==> o.displayText == WorldLabel(o.rect, cfg)
        invariant forall o :: o in Objects(batch) && o !in done ==> o.displayText == old(o.displayText)
        invariant forall k, o :: 0 <= k < i && o in frames[k].objects ==> o in done
        invariant forall m :: 0 <= m < j ==> objects[m] in done
      {
        var obj := objects[j];
        assert frame in batch.frames && obj in frame.objects;
        assert obj in Objects(batch);
        var c := Centre(obj.rect);
        var w := Projection.ImageToWorld(c.0, c.1, cfg.width, cfg.height,
                                         cfg.fovX, cfg.fovY, cfg.posX, cfg.posY);
        obj.displayText := Position(w.0, w.1);
        done := done + {obj};
      }
    }
    return Ok;
  }

  /** A batch whose frames carry no detections has no object the probe may
      change, so the probe leaves all of memory as it was. */
  lemma NoDetectionsNoObjects(batch: BatchMeta)
    requires forall f :: f in batch.frames ==> f.objects == []
    ensures Objects(batch) == {}
  {
  }

  /** The label does not depend on the camera's rotation or height: the probe
      passes neither to the projection. */
  lemma WorldLabelIgnoresRotationAndHeight(r: Rect, cfg: CameraConfig,
                                           rotX: real, rotY: real, rotZ: real, posZ: real)
    requires ResolutionPositive(cfg)
    ensures WorldLabel(r, cfg) == WorldLabel(r, cfg.(rotX := rotX, rotY := rotY, rotZ := rotZ, posZ := posZ))
  {
  }

  /** A box centred on the middle of the configured image is labelled with
      the camera's own ground position. */
  lemma CentredBoxLabelledWithCameraPosition(r: Rect, cfg: CameraConfig)
    requires ResolutionPositive(cfg)
    requires Centre(r) == (cfg.width as real / 2.0, cfg.height as real / 2.0)
    ensures WorldLabel(r, cfg) == Position(cfg.posX, cfg.posY)
  {
    Projection.CentreMapsToCamera(cfg.width, cfg.height, cfg.fovX, cfg.fovY, cfg.posX, cfg.posY);
  }

  /** With the installed configuration, a 200 x 100 box centred on pixel
      (1924, 1084) is labelled X:0.75 Y:0.00. */
  lemma DefaultConfigCentredBox()
    ensures WorldLabel(Rect(1824.0, 1034.0, 200.0, 100.0), DefaultConfig()) == Position(0.75, 0.0)
  {
    CentredBoxLabelledWithCameraPosition(Rect(1824.0, 1034.0, 200.0, 100.0), DefaultConfig());
  }

  /** A 1920 x 1080 image spanning 2.0 m x 1.5 m, the camera at the origin:
      a box centred on the image is labelled X:0.00 Y:0.00, and an empty box
      at the top-left corner X:-1.00 Y:-0.75. */
  lemma FullHdScenario()
    ensures var cfg := CameraConfig(1920, 1080, 0.0, 0.0, 0.0, 0.0, 0.0, 0.0, 2.0, 1.5);
            && WorldLabel(Rect(860.0, 480.0, 200.0, 120.0), cfg) == Position(0.0, 0.0)
            && WorldLabel(Rect(0.0, 0.0, 0.0, 0.0), cfg) == Position(-1.0, -0.75)
  {
    var cfg := CameraConfig(1920, 1080, 0.0, 0.0, 0.0, 0.0, 0.0, 0.0, 2.0, 1.5);
    CentredBoxLabelledWithCameraPosition(Rect(860.0, 480.0, 200.0, 120.0), cfg);
    Projection.CornersMapToHalfFov(1920, 1080, 2.0, 1.5, 0.0, 0.0);
  }

  /** The application's configuration run on one frame holding one box
      centred on pixel (1924, 1084): the probe returns Ok and labels the
      object with the camera's ground position (0.75, 0.0). */
  method AnnotateCentredBox() returns (ret: PadProbeReturn, text: DisplayText, box: Rect)
    ensures ret == Ok
    ensures text == Position(0.75, 0.0)
    ensures box == Rect(1824.0, 1034.0, 200.0, 100.0)
  {
    var obj := new ObjectMeta(Rect(1824.0, 1034.0, 200.0, 100.0));
    var frame := new FrameMeta([obj]);
    var batch := new BatchMeta([frame]);
    assert frame in batch.frames && obj in frame.objects;
    ret := OsdSinkPadBufferProbe(Some(batch), DefaultConfig());
    DefaultConfigCentredBox();
    text, box := obj.displayText, obj.rect;
  }

  /** A batch with no frames: the probe returns Ok and an object's display
      text is what it was before. */
  method EmptyBatchChangesNothing(obj: ObjectMeta, cfg: CameraConfig)
      returns (ret: PadProbeReturn, before: DisplayText, after: DisplayText)
    requires ResolutionPositive(cfg)
    ensures ret == Ok && after == before
  {
    var batch := new BatchMeta([]);
    before := obj.displayText;
    ret := OsdSinkPadBufferProbe(Some(batch), cfg);
    after := obj.displayText;
  }

  /** A buffer without batch metadata: the probe returns Ok and the
      object's display text is what it was before. */
  method AbsentBatchChangesNothing(obj: ObjectMeta, cfg: CameraConfig)
      returns (ret: PadProbeReturn, before: DisplayText, after: DisplayText)
    requires ResolutionPositive(cfg)
    ensures ret == Ok && after == before
  {
    before := obj.displayText;
    ret := OsdSinkPadBufferProbe(None, cfg);
    after := obj.displayText;
  }
}
