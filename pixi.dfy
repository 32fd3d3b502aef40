/** The parts of the rendering engine (PIXI) that the overlay touches. PIXI's
    own code is not part of this model: `resize` is recorded, not performed. */
module Pixi {
  import opened Geometry
  import opened Leaflet

  /** A renderer made by `PIXI.autoDetectRenderer`: its drawing surface
      `view`, the `size` property the overlay stores on it, and the log of
      `resize(width, height)` calls. */
  class Renderer {
    const view: DomElement
    var size: Option<Point>
    var resizes: seq<Point>

    constructor ()
      ensures fresh(view) && view.leafletPos == None && view.cssSize == None && !view.inPane
      ensures size == None && resizes == []
    {
      view := new DomElement();
      size, resizes := None, [];
    }

    /** `renderer.resize(width, height)` */
    method Resize(width: real, height: real)
      modifies this`resizes
      ensures resizes == old(resizes) + [Point(width, height)]
    {
      resizes := resizes + [Point(width, height)];
    }
  }

  /** The scene-graph root handed to the overlay: only its uniform scale and
      its position are set by the overlay. */
  class SceneRoot {
    var scale: real
    var position: Point

    constructor ()
      ensures scale == 1.0 && position == Point(0.0, 0.0)
    {
      scale, position := 1.0, Point(0.0, 0.0);
    }
  }
}
