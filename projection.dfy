/**
  Flat-ground pixel-to-world projection (apps/image_to_world.hpp).

  A pixel coordinate is normalised to [-0.5, 0.5] around the image centre,
  scaled by the ground extent (in metres) the image is assumed to span, and
  offset by the camera's ground position. `float` arithmetic is modelled by
  `real`, so every equality below holds exactly over the reals.
 */
module Projection {

  /** Projects pixel (px, py) of an img_width x img_height image onto the
      ground plane. The world offset from the camera is the pixel offset from
      the image centre, scaled by metres per pixel on each axis. */
  function ImageToWorld(px: real, py: real,
                        imgWidth: int, imgHeight: int,
                        fovX: real, fovY: real,
                        camX: real, camY: real): (r: (real, real))
    requires imgWidth > 0 && imgHeight > 0
    ensures r.0 - camX == (px - imgWidth as real / 2.0) * fovX / imgWidth as real
    ensures r.1 - camY == (py - imgHeight as real / 2.0) * fovY / imgHeight as real
  {
    var normX := px / imgWidth as real - 0.5;
    var normY := py / imgHeight as real - 0.5;
    var dx := normX * fovX;
    var dy := normY * fovY;
    (camX + dx, camY + dy)
  }

  /** The inverse map: the pixel that projects onto ground point (wx, wy).
      It exists whenever neither ground extent is zero. */
  function WorldToImage(wx: real, wy: real,
                        imgWidth: int, imgHeight: int,
                        fovX: real, fovY: real,
                        camX: real, camY: real): (r: (real, real))
    requires imgWidth > 0 && imgHeight > 0
    requires fovX != 0.0 && fovY != 0.0
  {
    (((wx - camX) / fovX + 0.5) * imgWidth as real,
     ((wy - camY) / fovY + 0.5) * imgHeight as real)
  }

  /** The image centre projects exactly onto the camera's ground position. */
  lemma CentreMapsToCamera(imgWidth: int, imgHeight: int,
                           fovX: real, fovY: real, camX: real, camY: real)
    requires imgWidth > 0 && imgHeight > 0
    ensures ImageToWorld(imgWidth as real / 2.0, imgHeight as real / 2.0,
                         imgWidth, imgHeight, fovX, fovY, camX, camY) == (camX, camY)
  {
  }

  /** The top-left corner projects half a field of view below the camera on
      both axes, the bottom-right corner half a field of view above it. */
  lemma CornersMapToHalfFov(imgWidth: int, imgHeight: int,
                            fovX: real, fovY: real, camX: real, camY: real)
    requires imgWidth > 0 && imgHeight > 0
    ensures ImageToWorld(0.0, 0.0, imgWidth, imgHeight, fovX, fovY, camX, camY)
            == (camX - fovX / 2.0, camY - fovY / 2.0)
    ensures ImageToWorld(imgWidth as real, imgHeight as real,
                         imgWidth, imgHeight, fovX, fovY, camX, camY)
            == (camX + fovX / 2.0, camY + fovY / 2.0)
  {
    assert imgWidth as real / imgWidth as real == 1.0;
    assert imgHeight as real / imgHeight as real == 1.0;
  }

  /** Scaling the pixel offset from the image centre by k scales the world
      offset from the camera by k (k = 2: doubling doubles). */
  lemma OffsetScales(k: real, dx: real, dy: real,
                     imgWidth: int, imgHeight: int,
                     fovX: real, fovY: real, camX: real, camY: real)
    requires imgWidth > 0 && imgHeight > 0
    ensures var cx, cy := imgWidth as real / 2.0, imgHeight as real / 2.0;
            var once := ImageToWorld(cx + dx, cy + dy, imgWidth, imgHeight, fovX, fovY, camX, camY);
            var scaled := ImageToWorld(cx + k * dx, cy + k * dy, imgWidth, imgHeight, fovX, fovY, camX, camY);
            scaled.0 - camX == k * (once.0 - camX) && scaled.1 - camY == k * (once.1 - camY)
  {
  }

  /** The axes are separable: the world x coordinate depends only on px, the
      image width, fovX and camX; the world y coordinate only on py, the image
      height, fovY and camY. */
  lemma AxesSeparable(px: real, px': real, py: real, py': real,
                      imgWidth: int, imgHeight: int, imgWidth': int, imgHeight': int,
                      fovX: real, fovY: real, fovX': real, fovY': real,
                      camX: real, camY: real, camX': real, camY': real)
    requires imgWidth > 0 && imgHeight > 0 && imgWidth' > 0 && imgHeight' > 0
    ensures ImageToWorld(px, py, imgWidth, imgHeight, fovX, fovY, camX, camY).0
            == ImageToWorld(px, py', imgWidth, imgHeight', fovX, fovY', camX, camY').0
    ensures ImageToWorld(px, py, imgWidth, imgHeight, fovX, fovY, camX, camY).1
            == ImageToWorld(px', py, imgWidth', imgHeight, fovX', fovY, camX', camY).1
  {
  }

  /** With a positive field of view the projection preserves the order of
      pixel coordinates on each axis, in both directions. */
  lemma Monotone(px1: real, py1: real, px2: real, py2: real,
                 imgWidth: int, imgHeight: int,
                 fovX: real, fovY: real, camX: real, camY: real)
    requires imgWidth > 0 && imgHeight > 0 && fovX > 0.0 && fovY > 0.0
    ensures var w1 := ImageToWorld(px1, py1, imgWidth, imgHeight, fovX, fovY, camX, camY);
            var w2 := ImageToWorld(px2, py2, imgWidth, imgHeight, fovX, fovY, camX, camY);
            (px1 <= px2 <==> w1.0 <= w2.0) && (py1 <= py2 <==> w1.1 <= w2.1)
  {
  }

  /** With a positive field of view, a pixel lies inside the image exactly when
      its ground point lies within half a field of view of the camera. */
  lemma Bounded(px: real, py: real,
                imgWidth: int, imgHeight: int,
                fovX: real, fovY: real, camX: real, camY: real)
    requires imgWidth > 0 && imgHeight > 0 && fovX > 0.0 && fovY > 0.0
    ensures var w := ImageToWorld(px, py, imgWidth, imgHeight, fovX, fovY, camX, camY);
            (0.0 <= px <= imgWidth as real <==> camX - fovX / 2.0 <= w.0 <= camX + fovX / 2.0)
            && (0.0 <= py <= imgHeight as real <==> camY - fovY / 2.0 <= w.1 <= camY + fovY / 2.0)
  {
    AxisBounded(px, imgWidth as real, fovX);
    AxisBounded(py, imgHeight as real, fovY);
  }

  /** One axis of Bounded, stated on the pixel offset from the centre. */
  lemma AxisBounded(p: real, extent: real, fov: real)
    requires extent > 0.0 && fov > 0.0
    ensures 0.0 <= p <= extent <==> -fov / 2.0 <= (p - extent / 2.0) * fov / extent <= fov / 2.0
  {
    var s := fov / extent;
    assert s > 0.0;
    assert (p - extent / 2.0) * fov / extent == (p - extent / 2.0) * s;
    assert (extent / 2.0) * s == fov / 2.0;
    assert 0.0 <= p <==> (0.0 - extent / 2.0) * s <= (p - extent / 2.0) * s;
    assert p <= extent <==> (p - extent / 2.0) * s <= (extent - extent / 2.0) * s;
  }

  /** Projecting a pixel and mapping the ground point back recovers the pixel:
      with a non-zero field of view, distinct pixels land on distinct ground points. */
  lemma WorldToImageInvertsProjection(px: real, py: real,
                                      imgWidth: int, imgHeight: int,
                                      fovX: real, fovY: real, camX: real, camY: real)
    requires imgWidth > 0 && imgHeight > 0 && fovX != 0.0 && fovY != 0.0
    ensures var w := ImageToWorld(px, py, imgWidth, imgHeight, fovX, fovY, camX, camY);
            WorldToImage(w.0, w.1, imgWidth, imgHeight, fovX, fovY, camX, camY) == (px, py)
  {
    var w := ImageToWorld(px, py, imgWidth, imgHeight, fovX, fovY, camX, camY);
    var b := WorldToImage(w.0, w.1, imgWidth, imgHeight, fovX, fovY, camX, camY);
    AxisRoundTrip(px, imgWidth as real, fovX, camX);
    AxisRoundTrip(py, imgHeight as real, fovY, camY);
    assert b.0 == px;
    assert b.1 == py;
  }

  /** One axis of WorldToImageInvertsProjection. */
  lemma AxisRoundTrip(p: real, extent: real, fov: real, cam: real)
    requires extent > 0.0 && fov != 0.0
    ensures ((cam + (p / extent - 0.5) * fov - cam) / fov + 0.5) * extent == p
  {
  }

  /** Every ground point is the projection of some pixel: mapping it back and
      projecting again returns it. */
  lemma ProjectionInvertsWorldToImage(wx: real, wy: real,
                                      imgWidth: int, imgHeight: int,
                                      fovX: real, fovY: real, camX: real, camY: real)
    requires imgWidth > 0 && imgHeight > 0 && fovX != 0.0 && fovY != 0.0
    ensures var p := WorldToImage(wx, wy, imgWidth, imgHeight, fovX, fovY, camX, camY);
            ImageToWorld(p.0, p.1, imgWidth, imgHeight, fovX, fovY, camX, camY) == (wx, wy)
  {
    var p := WorldToImage(wx, wy, imgWidth, imgHeight, fovX, fovY, camX, camY);
    var w := ImageToWorld(p.0, p.1, imgWidth, imgHeight, fovX, fovY, camX, camY);
    AxisRoundTripBack(wx, imgWidth as real, fovX, camX);
    AxisRoundTripBack(wy, imgHeight as real, fovY, camY);
    assert w.0 == wx;
    assert w.1 == wy;
  }

  /** One axis of ProjectionInvertsWorldToImage. */
  lemma AxisRoundTripBack(w: real, extent: real, fov: real, cam: real)
    requires extent > 0.0 && fov != 0.0
    ensures cam + (((w - cam) / fov + 0.5) * extent / extent - 0.5) * fov == w
  {
  }
}
