/**
 * The follow camera: the scroll wheel moves the zoom distance within its
 * bounds, and after every frame the camera is placed at the target minus
 * the offset scaled by the zoom, looking slightly above the target.
 */
module CameraControllers {
  import opened Engine

  /** The zoom after one frame's scroll `axis`. */
  function Zoomed(zoom: real, axis: real, speed: real, minZoom: real, maxZoom: real): real {
    Clamp(zoom - axis * speed, minZoom, maxZoom)
  }

  /** With ordered bounds every frame leaves the zoom within them, and a still wheel leaves a zoom within them alone. */
  lemma ZoomStaysInBounds(zoom: real, axis: real, speed: real, minZoom: real, maxZoom: real)
    requires minZoom <= maxZoom
    ensures minZoom <= Zoomed(zoom, axis, speed, minZoom, maxZoom) <= maxZoom
    ensures minZoom <= zoom <= maxZoom ==> Zoomed(zoom, 0.0, speed, minZoom, maxZoom) == zoom
  {
    ClampSpec(zoom - axis * speed, minZoom, maxZoom);
  }

  /** Where the camera goes for a target at `target`. */
  function CameraPosition(target: Vec3, offset: Vec3, zoom: real): Vec3 {
    target.Minus(offset.Scaled(zoom))
  }

  class CameraController {
    const offset: Vec3          // m_offsetPosition
    const offsetAngle: real     // m_offsetAngle
    const minZoom: real         // m_minZoomDistance
    const maxZoom: real         // m_maxZoomDistance
    const zoomSpeed: real       // m_zoomSpeed
    var hasTransform: bool      // m_transform != null
    var zoom: real              // m_currentZoomDistance
    var position: Vec3          // m_transform.position
    var lookAt: Option<Vec3>    // the point of the last LookAt

    /** The inspector's defaults; the zoom starts at 10 and the own transform is not cached yet. */
    constructor Default(position: Vec3)
      ensures offset == Vec3(0.5, -0.5, 0.0) && offsetAngle == 2.0
      ensures minZoom == 5.0 && maxZoom == 20.0 && zoomSpeed == 6.0
      ensures zoom == 10.0 && !hasTransform && this.position == position && lookAt == None
    {
      offset := Vec3(0.5, -0.5, 0.0);
      offsetAngle := 2.0;
      minZoom := 5.0;
      maxZoom := 20.0;
      zoomSpeed := 6.0;
      hasTransform := false;
      zoom := 10.0;
      this.position := position;
      lookAt := None;
    }

    /** Serialized settings; the zoom still starts at 10. */
    constructor (offset: Vec3, offsetAngle: real, minZoom: real, maxZoom: real, zoomSpeed: real, position: Vec3)
      ensures this.offset == offset && this.offsetAngle == offsetAngle
      ensures this.minZoom == minZoom && this.maxZoom == maxZoom && this.zoomSpeed == zoomSpeed
      ensures zoom == 10.0 && !hasTransform && this.position == position && lookAt == None
    {
      this.offset := offset;
      this.offsetAngle := offsetAngle;
      this.minZoom := minZoom;
      this.maxZoom := maxZoom;
      this.zoomSpeed := zoomSpeed;
      hasTransform := false;
      zoom := 10.0;
      this.position := position;
      lookAt := None;
    }

    /** `Start`: the camera's own transform is cached. */
    method Start()
      modifies this
      ensures hasTransform && zoom == old(zoom) && position == old(position) && lookAt == old(lookAt)
    {
      hasTransform := true;
    }

    /** `Update` through `SetCameraZoomLevel`, `axis` being the scroll wheel's reading. */
    method Update(axis: real)
      modifies this
      ensures zoom == Zoomed(old(zoom), axis, zoomSpeed, minZoom, maxZoom)
      ensures minZoom <= maxZoom ==> minZoom <= zoom <= maxZoom
      ensures hasTransform == old(hasTransform) && position == old(position) && lookAt == old(lookAt)
    {
      zoom := zoom - axis * zoomSpeed;
      zoom := Clamp(zoom, minZoom, maxZoom);
      if minZoom <= maxZoom {
        ZoomStaysInBounds(old(zoom), axis, zoomSpeed, minZoom, maxZoom);
      }
    }

    /**
     * `LateUpdate` for a target at `target` (None when the target transform
     * is missing): without the target or the own transform nothing moves.
     */
    method LateUpdate(target: Option<Vec3>)
      modifies this
      ensures target.None? || !hasTransform ==> position == old(position) && lookAt == old(lookAt)
      ensures target.Some? && hasTransform ==>
                && position == CameraPosition(target.value, offset, zoom)
                && lookAt == Some(target.value.Plus(Up.Scaled(offsetAngle)))
      ensures zoom == old(zoom) && hasTransform == old(hasTransform)
    {
      if target.None? {
        return;
      }
      if !hasTransform {
        return;
      }
      position := target.value.Minus(offset.Scaled(zoom));
      lookAt := Some(target.value.Plus(Up.Scaled(offsetAngle)));
    }
  }
}
