/** The rendering objects the manager composes: the crosshair's poly data and
    2D actor, the lightbox sub-renderers that display actors, and the proxy
    that resolves a depth coordinate to one of them. */
module Rendering {
  import opened Mrml
  import opened CrosshairGeometry

  /** Poly data holding the crosshair's point list and its cell array of lines. */
  class PolyData {
    var points: seq<Point>
    var lines: seq<Line>

    constructor ()
      ensures points == [] && lines == []
    {
      points := [];
      lines := [];
    }
  }

  /** A 2D actor drawing one poly data.  A line width of None means it was
      never set and the property's default applies. */
  class Actor2D {
    const polyData: PolyData
    var lineWidth: Option<int>
    var visible: bool
    var position: (real, real)

    constructor ()
      ensures fresh(polyData) && polyData.points == [] && polyData.lines == []
      ensures lineWidth.None? && visible && position == (0.0, 0.0)
    {
      polyData := new PolyData();
      lineWidth := None;
      visible := true;
      position := (0.0, 0.0);
    }

    method SetPosition(x: real, y: real)
      modifies this`position
      ensures position == (x, y)
    {
      position := (x, y);
    }
  }

  /** The actor as a frame or set of actors: empty when it is missing. */
  function ActorSet(a: Actor2D?): set<Actor2D>
  {
    if a == null then {} else {a}
  }

  /** A (lightbox sub-)renderer and the actors it displays; adding an actor it
      already displays has no effect. */
  class Renderer {
    var actors: set<Actor2D>

    constructor ()
      ensures actors == {}
    {
      actors := {};
    }

    method AddActor(a: Actor2D)
      modifies this`actors
      ensures actors == old(actors) + {a}
    {
      actors := actors + {a};
    }

    method RemoveActor(a: Actor2D)
      modifies this`actors
      ensures actors == old(actors) - {a}
    {
      actors := actors - {a};
    }
  }

  /** The lightbox renderer manager proxy: `getRenderer` gives the sub-renderer
      that displays a given projected depth, or none, and `tiles` are all the
      sub-renderers it can give. */
  datatype LightBoxProxy = LightBoxProxy(tiles: set<Renderer>, getRenderer: real -> Renderer?)

  ghost predicate ProxyValid(p: LightBoxProxy)
  {
    forall z :: p.getRenderer(z) != null ==> p.getRenderer(z) in p.tiles
  }

  /** The renderer that should display the crosshair once it is at depth `z`:
      the proxy's answer when there is a proxy, the current one otherwise. */
  function LightBoxTarget(current: Renderer?, proxy: Option<LightBoxProxy>, z: real): (target: Renderer?)
    ensures proxy.None? ==> target == current
    ensures proxy.Some? && ProxyValid(proxy.value) && target != null ==> target in proxy.value.tiles
  {
    if proxy.Some? then proxy.value.getRenderer(z) else current
  }

  /** Routing again to the same depth selects the renderer already chosen. */
  lemma LightBoxTargetIdempotent(current: Renderer?, proxy: Option<LightBoxProxy>, z: real)
    ensures LightBoxTarget(LightBoxTarget(current, proxy, z), proxy, z) == LightBoxTarget(current, proxy, z)
  {
  }
}
