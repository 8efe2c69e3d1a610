/** The crosshair displayable manager of a 2D slice view: it keeps a 2D
    crosshair actor in step with the scene's crosshair node, rebuilding the
    actor when the node's mode or thickness changes and moving it (and the
    lightbox sub-renderer that shows it) when the node's position changes. */
module CrosshairManager {
  import opened Mrml
  import opened CrosshairGeometry
  import opened Rendering

  /** Positions closer than this in every coordinate count as unchanged. */
  const PositionTolerance: real := 0.000000000001

  function Abs(x: real): real { if x < 0.0 then -x else x }

  /** Who sent an event: the scene, a crosshair node, or anything else. */
  datatype Caller = SceneCaller | CrosshairNodeCaller | OtherCaller

  datatype MrmlEvent = ModifiedEvent | SceneImportedEvent | SceneRestoredEvent | OtherEvent(id: int)

  /** The scene was imported or restored: the nodes are bound afresh. */
  function IsSceneReload(event: MrmlEvent): (reload: bool)
    // a reload is never taken for a modification, nor for any other event
    ensures reload ==> event != ModifiedEvent
    ensures event.OtherEvent? ==> !reload
  {
    event.SceneImportedEvent? || event.SceneRestoredEvent?
  }

  /** The bound slice composite node no longer belongs to the view: it is
      gone, has no layout name, or has another layout name than the slice node. */
  predicate CompositeBindingStale(bound: SliceCompositeNode?, slice: Option<SliceNode>): (stale: bool)
    // a bound node is kept exactly when the search would accept it
    ensures bound != null && slice.Some? ==>
      (stale <==> !IsCompositeFor(CompositeEntry(bound), slice.value.layoutName))
    ensures bound == null || slice.None? ==> stale
  {
    bound == null || bound.layoutName.None? || slice.None? ||
    bound.layoutName.value != slice.value.layoutName
  }

  /** The slice composite node bound after a slice node update. */
  function ResolvedComposite(scene: Option<MrmlScene>, slice: Option<SliceNode>, bound: SliceCompositeNode?): (c: SliceCompositeNode?)
    ensures !CompositeBindingStale(bound, slice) ==> c == bound
    ensures CompositeBindingStale(bound, slice) ==> c == CompositeOf(scene, slice)
    // whatever node is bound afterwards belongs to the view
    ensures c != null ==> !CompositeBindingStale(c, slice)
  {
    if CompositeBindingStale(bound, slice) then CompositeOf(scene, slice) else bound
  }

  /** Resolving the composite binding a second time keeps the node the first
      resolution chose. */
  lemma ResolvedCompositeIdempotent(scene: Option<MrmlScene>, slice: Option<SliceNode>, bound: SliceCompositeNode?)
    ensures ResolvedComposite(scene, slice, ResolvedComposite(scene, slice, bound)) == ResolvedComposite(scene, slice, bound)
  {
  }

  /** The actors of `s` other than `a` and `b`. */
  ghost function OtherActors(s: set<Actor2D>, a: Actor2D?, b: Actor2D?): set<Actor2D>
  {
    s - ActorSet(a) - ActorSet(b)
  }

  /** A step that moves only `a` and `b`, followed by one that moves only
      `a`, moves no other actor in total. */
  lemma OtherActorsStay(s0: set<Actor2D>, s1: set<Actor2D>, s2: set<Actor2D>, a: Actor2D?, b: Actor2D?)
    requires OtherActors(s1, a, b) == OtherActors(s0, a, b)
    requires s2 - ActorSet(a) == s1 - ActorSet(a)
    ensures OtherActors(s2, a, b) == OtherActors(s0, a, b)
  {
  }

  /** When `a` replaces `b` (`a` new to the set, `b` gone from it), or
      `a` is `b`, equal OtherActors means every other actor is in both
      sets or in neither. */
  lemma SameOtherActors(s0: set<Actor2D>, s1: set<Actor2D>, a: Actor2D?, b: Actor2D?)
    requires OtherActors(s1, a, b) == OtherActors(s0, a, b)
    requires a != b ==> a !in s0 && b !in s1
    ensures forall x :: x in s0 && x != b ==> x in s1
    ensures forall x :: x in s1 && x != a ==> x in s0
  {
    forall x | x in s0 && x != b
      ensures x in s1
    {
      if x != a {
        assert x in OtherActors(s0, a, b);
      }
    }
    forall x | x in s1 && x != a
      ensures x in s0
    {
      if x != b {
        assert x in OtherActors(s1, a, b);
      }
    }
  }

  /** The actor shows the crosshair of `node` on a `w` by `h` screen: its
      points and lines are those of the mode's segments, its line width that
      of the thickness, and it is visible unless the mode is NoCrosshair. */
  ghost predicate ActorDraws(a: Actor2D, node: CrosshairSnapshot, w: int, h: int)
    reads a`lineWidth, a`visible, a.polyData
  {
    var segs := CrosshairSegments(node.mode, w, h);
    a.polyData.points == PointsOf(segs) && a.polyData.lines == LinesOf(|segs|) &&
    a.lineWidth == LineWidth(node.thickness) && a.visible == IsVisible(node.mode)
  }

  class CrosshairDisplayableManager {
    var scene: Option<MrmlScene>
    var sliceNode: Option<SliceNode>
    var sliceCompositeNode: SliceCompositeNode?
    var crosshairNode: CrosshairNode?
    var actor: Actor2D?
    var cache: CrosshairSnapshot
    var lightBoxRenderer: Renderer?
    var lightBoxProxy: Option<LightBoxProxy>
    var watchesMouseMove: bool
    /** Every lightbox renderer the actor could be put in. */
    ghost var renderers: set<Renderer>

    /** The actor is in the current lightbox renderer and in no other, and
        each bound node has the manager among its observers. */
    ghost predicate Valid()
      reads this`lightBoxRenderer, this`lightBoxProxy, this`actor, this`renderers, this`crosshairNode, this`sliceCompositeNode
      reads renderers, crosshairNode, sliceCompositeNode
    {
      (lightBoxRenderer != null ==> lightBoxRenderer in renderers) &&
      (lightBoxProxy.Some? ==> ProxyValid(lightBoxProxy.value) && lightBoxProxy.value.tiles <= renderers) &&
      (actor != null ==> forall r :: r in renderers ==> (actor in r.actors <==> r == lightBoxRenderer)) &&
      (crosshairNode != null ==> this in crosshairNode.observers) &&
      (sliceCompositeNode != null ==> this in sliceCompositeNode.observers)
    }

    /** `initialCache` is a default crosshair node's state. */
    constructor (scene: Option<MrmlScene>, sliceNode: Option<SliceNode>, initialCache: CrosshairSnapshot)
      ensures Valid()
      ensures this.scene == scene && this.sliceNode == sliceNode && cache == initialCache
      ensures sliceCompositeNode == null && crosshairNode == null && actor == null
      ensures lightBoxRenderer == null && lightBoxProxy.None? && renderers == {}
      ensures !watchesMouseMove
      // a new manager is no node's observer yet
      ensures ObservesOnlyBound()
    {
      this.scene := scene;
      this.sliceNode := sliceNode;
      cache := initialCache;
      sliceCompositeNode := null;
      crosshairNode := null;
      actor := null;
      lightBoxRenderer := null;
      lightBoxProxy := None;
      watchesMouseMove := false;
      renderers := {};
    }

    // ---------------------------------------------------------------- change detection

    function DidCrosshairPositionChange(): (changed: bool)
      reads this`crosshairNode, this`cache, crosshairNode
      ensures changed ==> crosshairNode != null
      ensures crosshairNode != null ==>
        (changed <==> exists i :: 0 <= i < 3 && Abs(cache.ras.At(i) - crosshairNode.ras.At(i)) >= PositionTolerance)
    {
      if crosshairNode == null then false
      else
        var cached, current := cache.ras, crosshairNode.ras;
        assert cached.At(0) == cached.x && cached.At(1) == cached.y && cached.At(2) == cached.z;
        !(Abs(cached.x - current.x) < PositionTolerance &&
          Abs(cached.y - current.y) < PositionTolerance &&
          Abs(cached.z - current.z) < PositionTolerance)
    }

    function DidCrosshairPropertyChange(): (changed: bool)
      reads this`crosshairNode, this`cache, crosshairNode
      ensures changed ==> crosshairNode != null
      ensures crosshairNode != null ==>
        (changed <==> cache.mode != crosshairNode.mode || cache.thickness != crosshairNode.thickness)
    {
      if crosshairNode == null then false
      else
        var modeChanged := cache.mode != crosshairNode.mode;
        var thicknessChanged := cache.thickness != crosshairNode.thickness;
        modeChanged || thicknessChanged
    }

    /** A modified crosshair node makes the manager move its actor: after a
        rebuild, or when the position changed and there is an actor. */
    ghost predicate WillReposition(): (will: bool)
      reads this`crosshairNode, this`cache, this`actor, crosshairNode
      ensures will ==> crosshairNode != null
      ensures actor == null ==> (will <==> DidCrosshairPropertyChange())
      ensures !DidCrosshairPropertyChange() && !DidCrosshairPositionChange() ==> !will
    {
      DidCrosshairPropertyChange() || (DidCrosshairPositionChange() && actor != null)
    }

    /** Once the cache holds a copy of the node, neither change is seen. */
    lemma RefreshedCacheSeesNoChange()
      requires crosshairNode != null && cache == crosshairNode.Snapshot()
      ensures !DidCrosshairPositionChange() && !DidCrosshairPropertyChange()
    {
    }

    // ---------------------------------------------------------------- node binding

    method FindSliceCompositeNode() returns (found: SliceCompositeNode?)
      ensures found == CompositeOf(scene, sliceNode)
    {
      if scene.None? || sliceNode.None? {
        return null;
      }
      var nodes := scene.value.nodes;
      var layout := sliceNode.value.layoutName;
      var i := 0;
      while i < |nodes|
        invariant 0 <= i <= |nodes|
        invariant FirstCompositeFor(nodes, layout, i) == FirstCompositeFor(nodes, layout, 0)
      {
        var node := nodes[i];
        if node.CompositeEntry? && node.composite.layoutName.Some? && node.composite.layoutName.value == layout {
          return node.composite;
        }
        i := i + 1;
      }
      return null;
    }

    method FindCrosshairNode() returns (found: CrosshairNode?)
      ensures found == DefaultCrosshairOf(scene)
    {
      if scene.None? {
        return null;
      }
      var nodes := scene.value.nodes;
      var i := 0;
      while i < |nodes|
        invariant 0 <= i <= |nodes|
        invariant FirstDefaultCrosshair(nodes, i) == FirstDefaultCrosshair(nodes, 0)
      {
        var node := nodes[i];
        if node.CrosshairEntry? && node.crosshair.name == "default" {
          return node.crosshair;
        }
        i := i + 1;
      }
      return null;
    }

    method SetSliceCompositeNode(compositeNode: SliceCompositeNode?)
      requires Valid()
      modifies this`sliceCompositeNode, CompositeSet(sliceCompositeNode)`observers, CompositeSet(compositeNode)`observers
      ensures Valid()
      ensures sliceCompositeNode == compositeNode
      ensures old(sliceCompositeNode) == compositeNode ==>
        compositeNode != null ==> compositeNode.observers == old(compositeNode.observers)
      ensures old(sliceCompositeNode) != compositeNode ==>
        (old(sliceCompositeNode) != null ==>
           old(sliceCompositeNode).observers == old(sliceCompositeNode.observers)[this := 0]) &&
        (compositeNode != null ==> compositeNode.observers == old(compositeNode.observers) + multiset{this})
    {
      if sliceCompositeNode == compositeNode {
        return;
      }
      if sliceCompositeNode != null {
        sliceCompositeNode.RemoveObserver(this);
      }
      sliceCompositeNode := compositeNode;
      if sliceCompositeNode != null {
        sliceCompositeNode.AddObserver(this);
      }
    }

    method SetCrosshairNode(node: CrosshairNode?)
      requires Valid()
      modifies this`crosshairNode, CrosshairSet(crosshairNode)`observers, CrosshairSet(node)`observers
      ensures Valid()
      ensures crosshairNode == node
      // only observer lists change: both nodes keep their position, mode and thickness
      ensures old(crosshairNode) != null ==> old(crosshairNode).Snapshot() == old(crosshairNode.Snapshot())
      ensures node != null ==> node.Snapshot() == old(node.Snapshot())
      ensures old(crosshairNode) == node ==>
        node != null ==> node.observers == old(node.observers)
      ensures old(crosshairNode) != node ==>
        (old(crosshairNode) != null ==> old(crosshairNode).observers == old(crosshairNode.observers)[this := 0]) &&
        (node != null ==> node.observers == old(node.observers) + multiset{this})
    {
      if crosshairNode == node {
        return;
      }
      if crosshairNode != null {
        crosshairNode.RemoveObserver(this);
      }
      crosshairNode := node;
      if crosshairNode != null {
        crosshairNode.AddObserver(this);
      }
    }

    /** What UpdateSliceNode demands: the slice node can be missing only when
        the bound composite node has no layout name to compare with it. */
    predicate CanUpdateSliceNode()
      reads this`sliceNode, this`sliceCompositeNode
    {
      sliceNode.None? ==> sliceCompositeNode == null || sliceCompositeNode.layoutName.None?
    }

    /** Among the scene's slice composite nodes, the manager observes the
        bound one once and no other. */
    ghost predicate ObservesOnlyBoundComposite()
      reads this`scene, this`sliceCompositeNode, SceneComposites(scene)
    {
      forall c :: c in SceneComposites(scene) ==>
        c.observers[this] == if c == sliceCompositeNode then 1 else 0
    }

    /** Among the scene's crosshair nodes, the manager observes the bound one
        once and no other. */
    ghost predicate ObservesOnlyBoundCrosshair()
      reads this`scene, this`crosshairNode, SceneCrosshairs(scene)
    {
      forall c :: c in SceneCrosshairs(scene) ==>
        c.observers[this] == if c == crosshairNode then 1 else 0
    }

    /** The manager is subscribed to the bound nodes only, each once, so no
        callback arrives twice and none from a node it dropped. */
    ghost predicate ObservesOnlyBound()
      reads this`scene, this`sliceCompositeNode, this`crosshairNode, SceneComposites(scene), SceneCrosshairs(scene)
    {
      ObservesOnlyBoundComposite() && ObservesOnlyBoundCrosshair()
    }

    /** The composite node's observer lists after rebinding from `before` to
        `after`: a kept binding changes nothing, otherwise the old node loses
        every registration of the manager and the new node gains one. */
    twostate predicate CompositeRebound(before: SliceCompositeNode?, after: SliceCompositeNode?)
      reads before, after
    {
      (before == after ==> after != null ==> after.observers == old(after.observers)) &&
      (before != after ==>
         (before != null ==> before.observers == old(before.observers)[this := 0]) &&
         (after != null ==> after.observers == old(after.observers) + multiset{this}))
    }

    /** The same for the crosshair node. */
    twostate predicate CrosshairRebound(before: CrosshairNode?, after: CrosshairNode?)
      reads before, after
    {
      (before == after ==> after != null ==> after.observers == old(after.observers)) &&
      (before != after ==>
         (before != null ==> before.observers == old(before.observers)[this := 0]) &&
         (after != null ==> after.observers == old(after.observers) + multiset{this}))
    }

    /** The first half of UpdateSliceNode: searches the composite node again
        only when the bound one no longer belongs to the view. */
    method RebindComposite()
      requires Valid() && CanUpdateSliceNode()
      modifies this`sliceCompositeNode, CompositeSet(sliceCompositeNode)`observers, SceneComposites(scene)`observers
      ensures Valid() && CanUpdateSliceNode()
      ensures sliceCompositeNode == ResolvedComposite(scene, sliceNode, old(sliceCompositeNode))
      ensures CompositeRebound(old(sliceCompositeNode), sliceCompositeNode)
      // no other composite node changes
      ensures forall c :: c in old(SceneComposites(scene)) && c != old(sliceCompositeNode) && c != sliceCompositeNode ==>
        c.observers == old(c.observers)
      ensures old(ObservesOnlyBoundComposite()) ==> ObservesOnlyBoundComposite()
      // crosshair nodes are not touched
      ensures forall c :: c in old(SceneCrosshairs(scene)) ==> c.observers == old(c.observers)
    {
      if sliceCompositeNode == null || sliceCompositeNode.layoutName.None? ||
         sliceCompositeNode.layoutName.value != sliceNode.value.layoutName {
        var compositeNode := FindSliceCompositeNode();
        SetSliceCompositeNode(compositeNode);
      }
    }

    /** Re-resolves the slice composite node (only when the bound one no
        longer belongs to the view) and the crosshair node. */
    method UpdateSliceNode()
      requires Valid() && CanUpdateSliceNode()
      modifies this`sliceCompositeNode, this`crosshairNode, CompositeSet(sliceCompositeNode)`observers, CrosshairSet(crosshairNode)`observers
      modifies SceneComposites(scene)`observers, SceneCrosshairs(scene)`observers
      ensures Valid() && CanUpdateSliceNode()
      ensures sliceCompositeNode == ResolvedComposite(scene, sliceNode, old(sliceCompositeNode))
      ensures crosshairNode == DefaultCrosshairOf(scene)
      // a second update would bind the same nodes, so it would change nothing
      ensures ResolvedComposite(scene, sliceNode, sliceCompositeNode) == sliceCompositeNode
      ensures CompositeRebound(old(sliceCompositeNode), sliceCompositeNode)
      ensures CrosshairRebound(old(crosshairNode), crosshairNode)
      // no other node of the scene changes
      ensures forall c :: c in old(SceneComposites(scene)) && c != old(sliceCompositeNode) && c != sliceCompositeNode ==>
        c.observers == old(c.observers)
      ensures forall c :: c in old(SceneCrosshairs(scene)) && c != old(crosshairNode) && c != crosshairNode ==>
        c.observers == old(c.observers)
      ensures old(ObservesOnlyBound()) ==> ObservesOnlyBound()
    {
      RebindComposite();
      RebindCrosshair();
      ResolvedCompositeIdempotent(scene, sliceNode, old(sliceCompositeNode));
    }

    /** The second half of UpdateSliceNode: binds the scene's default
        crosshair node. */
    method RebindCrosshair()
      requires Valid()
      modifies this`crosshairNode, CrosshairSet(crosshairNode)`observers, SceneCrosshairs(scene)`observers
      ensures Valid()
      ensures crosshairNode == DefaultCrosshairOf(scene)
      ensures CrosshairRebound(old(crosshairNode), crosshairNode)
      // no other crosshair node changes
      ensures forall c :: c in old(SceneCrosshairs(scene)) && c != old(crosshairNode) && c != crosshairNode ==>
        c.observers == old(c.observers)
      ensures old(ObservesOnlyBoundCrosshair()) ==> ObservesOnlyBoundCrosshair()
      // composite nodes are not touched
      ensures forall c :: c in old(SceneComposites(scene)) ==> c.observers == old(c.observers)
    {
      var node := FindCrosshairNode();
      SetCrosshairNode(node);
    }

    // ---------------------------------------------------------------- building the actor

    /** Appends the two ends of one line to the point list and a cell joining
        them to the cell array. */
    method AddCrosshairLine(poly: PolyData, p1x: int, p1y: int, p2x: int, p2y: int)
      modifies poly
      ensures poly.points == old(poly.points) + [Point(p1x, p1y, 0), Point(p2x, p2y, 0)]
      ensures poly.lines == old(poly.lines) + [Line(|old(poly.points)|, |old(poly.points)| + 1)]
    {
      var p1 := |poly.points|;
      poly.points := poly.points + [Point(p1x, p1y, 0)];
      var p2 := |poly.points|;
      poly.points := poly.points + [Point(p2x, p2y, 0)];
      poly.lines := poly.lines + [Line(p1, p2)];
    }

    /** The geometry of BuildCrosshair: computes the display-coordinate
        constants for a `screenW` by `screenH` screen and adds the lines of
        `mode` to an empty poly data. */
    method AddModeLines(poly: PolyData, mode: CrosshairMode, screenW: int, screenH: int)
      requires poly.points == [] && poly.lines == []
      modifies poly
      ensures poly.points == PointsOf(CrosshairSegments(mode, screenW, screenH))
      ensures poly.lines == LinesOf(|CrosshairSegments(mode, screenW, screenH)|)
    {
      var negW, negWminus, negWminus2, posWplus, posWplus2, posW := -screenW, -Gap, -StubEnd, Gap, StubEnd, screenW;
      var negH, negHminus, negHminus2, posHplus, posHplus2, posH := -screenH, -Gap, -StubEnd, Gap, StubEnd, screenH;

      // `drawn` tracks the segments added so far
      ghost var drawn: seq<Segment> := [];
      match mode {
        case NoCrosshair =>
        case ShowBasic =>
          drawn := DrawSegment(poly, drawn, 0, negH, 0, negHminus);
          drawn := DrawSegment(poly, drawn, 0, posHplus, 0, posH);
          drawn := DrawSegment(poly, drawn, negW, 0, negWminus, 0);
          drawn := DrawSegment(poly, drawn, posWplus, 0, posW, 0);
          assert drawn == CrosshairSegments(mode, screenW, screenH);
        case ShowIntersection =>
          drawn := DrawSegment(poly, drawn, negW, 0, posW, 0);
          drawn := DrawSegment(poly, drawn, 0, negH, 0, posH);
          assert drawn == CrosshairSegments(mode, screenW, screenH);
        case ShowSmallBasic =>
          drawn := DrawSegment(poly, drawn, 0, negHminus2, 0, negHminus);
          drawn := DrawSegment(poly, drawn, 0, posHplus, 0, posHplus2);
          drawn := DrawSegment(poly, drawn, negWminus2, 0, negWminus, 0);
          drawn := DrawSegment(poly, drawn, posWplus, 0, posWplus2, 0);
          assert drawn == CrosshairSegments(mode, screenW, screenH);
        case ShowSmallIntersection =>
          drawn := DrawSegment(poly, drawn, 0, negHminus2, 0, posHplus2);
          drawn := DrawSegment(poly, drawn, negWminus2, 0, posWplus2, 0);
          assert drawn == CrosshairSegments(mode, screenW, screenH);
        case OtherMode(_) =>
      }
    }

    /** AddCrosshairLine seen through the segments drawn so far: the poly
        data then holds exactly `drawn` followed by the new segment. */
    method DrawSegment(poly: PolyData, ghost drawn: seq<Segment>, x1: int, y1: int, x2: int, y2: int)
      returns (ghost drawnNow: seq<Segment>)
      requires poly.points == PointsOf(drawn) && poly.lines == LinesOf(|drawn|)
      modifies poly
      ensures drawnNow == drawn + [Segment(x1, y1, x2, y2)]
      ensures poly.points == PointsOf(drawnNow) && poly.lines == LinesOf(|drawnNow|)
    {
      AddCrosshairLine(poly, x1, y1, x2, y2);
      AppendSegment(drawn, Segment(x1, y1, x2, y2));
      drawnNow := drawn + [Segment(x1, y1, x2, y2)];
    }

    /** Takes the actor out of the current lightbox renderer and drops it
        (the first step of BuildCrosshair). */
    method RemoveActor()
      requires Valid()
      modifies this`actor, lightBoxRenderer
      ensures Valid() && actor == null
      ensures lightBoxRenderer != null ==>
        lightBoxRenderer.actors == old(lightBoxRenderer.actors) - ActorSet(old(actor))
      ensures old(actor) != null ==> forall r :: r in renderers ==> old(actor) !in r.actors
    {
      if actor != null {
        if lightBoxRenderer != null {
          lightBoxRenderer.RemoveActor(actor);
        }
        actor := null;
      }
    }

    /** Creates an empty actor, puts it in the current lightbox renderer and
        keeps it as the actor. */
    method AddNewActor() returns (newActor: Actor2D)
      requires Valid() && actor == null
      modifies this`actor, lightBoxRenderer
      ensures Valid() && actor == newActor
      ensures fresh(newActor) && fresh(newActor.polyData)
      ensures newActor.polyData.points == [] && newActor.polyData.lines == []
      ensures newActor.lineWidth.None? && newActor.visible && newActor.position == (0.0, 0.0)
      ensures lightBoxRenderer != null ==> lightBoxRenderer.actors == old(lightBoxRenderer.actors) + {newActor}
    {
      newActor := new Actor2D();
      if lightBoxRenderer != null {
        lightBoxRenderer.AddActor(newActor);
      }
      actor := newActor;
    }

    /** The last step of BuildCrosshair: the line width for the thickness
        (left unset for an unrecognised one) and the visibility for the mode. */
    method SetActorStyle(a: Actor2D, mode: CrosshairMode, thickness: CrosshairThickness)
      modifies a`lineWidth, a`visible
      ensures a.lineWidth == if LineWidth(thickness).Some? then LineWidth(thickness) else old(a.lineWidth)
      ensures a.visible == IsVisible(mode)
    {
      if thickness == Fine {
        a.lineWidth := Some(1);
      } else if thickness == Medium {
        a.lineWidth := Some(3);
      } else if thickness == Thick {
        a.lineWidth := Some(5);
      }

      if mode == NoCrosshair {
        a.visible := false;
      } else {
        a.visible := true;
      }
    }

    /** Replaces the actor by a new one drawing the bound crosshair node's
        mode and thickness; does nothing when no crosshair node is bound. */
    method BuildCrosshair(screenW: int, screenH: int)
      requires Valid()
      modifies this`actor, lightBoxRenderer
      ensures Valid()
      ensures crosshairNode == null ==>
        actor == old(actor) && (lightBoxRenderer != null ==> lightBoxRenderer.actors == old(lightBoxRenderer.actors))
      ensures crosshairNode != null ==>
        actor != null && fresh(actor) && fresh(actor.polyData) && actor.position == (0.0, 0.0) &&
        ActorDraws(actor, crosshairNode.Snapshot(), screenW, screenH)
      ensures crosshairNode != null && lightBoxRenderer != null ==>
        lightBoxRenderer.actors ==
          old(lightBoxRenderer.actors) - ActorSet(old(actor)) + {actor}
      // the replaced actor is left in no lightbox renderer
      ensures crosshairNode != null && old(actor) != null ==>
        forall r :: r in renderers ==> old(actor) !in r.actors
    {
      if crosshairNode == null {
        return;
      }
      RemoveActor();

      var newActor := AddNewActor();
      AddModeLines(newActor.polyData, crosshairNode.mode, screenW, screenH);

      SetActorStyle(newActor, crosshairNode.mode, crosshairNode.thickness);
    }

    // ---------------------------------------------------------------- lightbox routing

    /** Moves the actor to the lightbox renderer the proxy gives for depth
        `z`, removing and adding it only when that renderer is a new one. */
    method PutActorInLightBox(z: real)
      requires Valid() && actor != null
      modifies this`lightBoxRenderer, renderers
      ensures Valid()
      ensures lightBoxRenderer == LightBoxTarget(old(lightBoxRenderer), lightBoxProxy, z)
      ensures lightBoxRenderer == old(lightBoxRenderer) ==>
        forall r :: r in renderers ==> r.actors == old(r.actors)
      ensures lightBoxRenderer != old(lightBoxRenderer) ==>
        forall r :: r in renderers ==>
          r.actors == (if r == old(lightBoxRenderer) then old(r.actors) - {actor}
                       else if r == lightBoxRenderer then old(r.actors) + {actor}
                       else old(r.actors))
    {
      if lightBoxProxy.Some? {
        var renderer := lightBoxProxy.value.getRenderer(z);
        if renderer != lightBoxRenderer {
          if lightBoxRenderer != null {
            lightBoxRenderer.RemoveActor(actor);
          }
          if renderer != null {
            renderer.AddActor(actor);
          }
          lightBoxRenderer := renderer;
        }
      }
    }

    /** The actor is displayed by at most one lightbox renderer. */
    lemma ActorInAtMostOneRenderer(r1: Renderer, r2: Renderer)
      requires Valid() && actor != null
      requires r1 in renderers && r2 in renderers
      requires actor in r1.actors && actor in r2.actors
      ensures r1 == r2 == lightBoxRenderer
    {
    }

    method SetLightBoxRendererManagerProxy(proxy: Option<LightBoxProxy>)
      requires Valid()
      requires proxy.Some? ==> ProxyValid(proxy.value)
      // no other code puts the crosshair actor in a renderer
      requires proxy.Some? && actor != null ==>
        forall r :: r in proxy.value.tiles && r != lightBoxRenderer ==> actor !in r.actors
      modifies this`lightBoxProxy, this`renderers
      ensures Valid()
      ensures lightBoxProxy == proxy
      ensures renderers == old(renderers) + (if proxy.Some? then proxy.value.tiles else {})
    {
      lightBoxProxy := proxy;
      if proxy.Some? {
        renderers := renderers + proxy.value.tiles;
      }
    }

    // ---------------------------------------------------------------- event handling

    /** The handling of a modified crosshair node is complete: the actor is
        rebuilt exactly when the mode or thickness changed, moved to the
        projected position (and lightbox) exactly when a rebuild happened or
        the position changed with an actor present. */
    twostate predicate HandledCrosshairModified(screenW: int, screenH: int)
      reads this`crosshairNode, this`actor, this`sliceNode, this`lightBoxRenderer, this`lightBoxProxy
      reads crosshairNode, actor, if actor != null then {actor.polyData} else {}
    {
      crosshairNode != null &&
      (old(DidCrosshairPropertyChange()) ==>
         actor != null && fresh(actor) && ActorDraws(actor, crosshairNode.Snapshot(), screenW, screenH)) &&
      (!old(DidCrosshairPropertyChange()) ==> actor == old(actor)) &&
      (old(WillReposition()) ==>
         actor != null && sliceNode.Some? &&
         var p := sliceNode.value.rasToXy(crosshairNode.ras);
         actor.position == (p.x, p.y) &&
         lightBoxRenderer == LightBoxTarget(old(lightBoxRenderer), lightBoxProxy, p.z)) &&
      (!old(WillReposition()) ==>
         lightBoxRenderer == old(lightBoxRenderer) &&
         (actor != null ==> actor.position == old(actor.position)))
    }

    /** What else handling a modified crosshair node does: no renderer
        changes unless the actor moves, a replaced actor is left in no
        renderer, a kept actor keeps its drawing and style, and no other
        actor enters or leaves a renderer. */
    twostate predicate OnlyCrosshairActorMoved()
      reads this`renderers, this`actor, renderers, actor, if actor != null then {actor.polyData} else {}
    {
      renderers == old(renderers) &&
      (!old(WillReposition()) ==> forall r :: r in old(renderers) ==> r.actors == old(r.actors)) &&
      (old(actor) != null && actor != old(actor) ==> forall r :: r in old(renderers) ==> old(actor) !in r.actors) &&
      (actor == old(actor) && actor != null ==>
         actor.lineWidth == old(actor.lineWidth) && actor.visible == old(actor.visible) &&
         actor.polyData.points == old(actor.polyData.points) && actor.polyData.lines == old(actor.polyData.lines)) &&
      (forall r :: r in old(renderers) ==>
         OtherActors(r.actors, actor, old(actor)) == OtherActors(old(r.actors), actor, old(actor)))
    }

    /** The last clause of OnlyCrosshairActorMoved, actor by actor: every
        other actor stays in the renderers it was in, and none joins one. */
    twostate predicate OtherActorsKept()
      reads this`renderers, this`actor, renderers
    {
      renderers == old(renderers) &&
      (forall r, b :: r in renderers && b in old(r.actors) && b != old(actor) ==> b in r.actors) &&
      (forall r, b :: r in renderers && b in r.actors && b != actor ==> b in old(r.actors))
    }

    /** Everything handling a modified crosshair node promises, together. */
    twostate predicate CrosshairEventHandled(screenW: int, screenH: int)
      reads this`crosshairNode, this`actor, this`sliceNode, this`lightBoxRenderer, this`lightBoxProxy, this`cache
      reads this`renderers, renderers, crosshairNode, actor, if actor != null then {actor.polyData} else {}
    {
      HandledCrosshairModified(screenW, screenH) && OnlyCrosshairActorMoved() && OtherActorsKept() &&
      crosshairNode != null && cache == crosshairNode.Snapshot()
    }

    /** Places the actor at the crosshair's projected view position and in
        the lightbox renderer for its projected depth. */
    method MoveActorToCrosshair()
      requires Valid() && actor != null && crosshairNode != null && sliceNode.Some?
      modifies actor`position, this`lightBoxRenderer, renderers
      ensures Valid()
      ensures var p := sliceNode.value.rasToXy(crosshairNode.ras);
        actor.position == (p.x, p.y) && lightBoxRenderer == LightBoxTarget(old(lightBoxRenderer), lightBoxProxy, p.z)
      // only the actor itself moves between renderers
      ensures forall r :: r in renderers ==> r.actors - {actor} == old(r.actors) - {actor}
      ensures forall r :: r in renderers ==> r.actors <= old(r.actors) + {actor}
    {
      var pos := sliceNode.value.rasToXy(crosshairNode.ras);
      actor.SetPosition(pos.x, pos.y);
      PutActorInLightBox(pos.z);
    }

    /** The first step of handling a modified crosshair node: the actor is
        rebuilt when the mode or thickness changed. */
    method RebuildIfPropertyChanged(screenW: int, screenH: int) returns (builtCrosshair: bool)
      requires Valid()
      modifies this`actor, lightBoxRenderer
      ensures Valid()
      ensures builtCrosshair == old(DidCrosshairPropertyChange())
      ensures builtCrosshair ==>
        crosshairNode != null && actor != null && fresh(actor) && fresh(actor.polyData) &&
        ActorDraws(actor, crosshairNode.Snapshot(), screenW, screenH)
      ensures !builtCrosshair ==>
        actor == old(actor) && (lightBoxRenderer != null ==> lightBoxRenderer.actors == old(lightBoxRenderer.actors))
      ensures builtCrosshair && lightBoxRenderer != null ==>
        lightBoxRenderer.actors == old(lightBoxRenderer.actors) - ActorSet(old(actor)) + {actor}
      ensures builtCrosshair && old(actor) != null ==> forall r :: r in renderers ==> old(actor) !in r.actors
      ensures forall r :: r in renderers ==>
        OtherActors(r.actors, actor, old(actor)) == OtherActors(old(r.actors), actor, old(actor))
    {
      builtCrosshair := false;
      if DidCrosshairPropertyChange() {
        BuildCrosshair(screenW, screenH);
        builtCrosshair := true;
      }
    }

    /** The second step of handling a modified crosshair node: the actor, if
        any, moves when the position changed or it was just rebuilt. */
    method RepositionActor(builtCrosshair: bool)
      requires Valid() && crosshairNode != null
      requires (DidCrosshairPositionChange() || builtCrosshair) && actor != null ==> sliceNode.Some?
      modifies ActorSet(actor)`position, this`lightBoxRenderer, renderers
      ensures Valid()
      ensures (DidCrosshairPositionChange() || builtCrosshair) && actor != null ==>
        var p := sliceNode.value.rasToXy(crosshairNode.ras);
        actor.position == (p.x, p.y) && lightBoxRenderer == LightBoxTarget(old(lightBoxRenderer), lightBoxProxy, p.z)
      ensures !((DidCrosshairPositionChange() || builtCrosshair) && actor != null) ==>
        lightBoxRenderer == old(lightBoxRenderer) && (actor != null ==> actor.position == old(actor.position)) &&
        forall r :: r in renderers ==> r.actors == old(r.actors)
      ensures forall r :: r in renderers ==> r.actors - ActorSet(actor) == old(r.actors) - ActorSet(actor)
      ensures forall r :: r in renderers ==> r.actors <= old(r.actors) + ActorSet(actor)
    {
      if (DidCrosshairPositionChange() || builtCrosshair) && actor != null {
        MoveActorToCrosshair();
      }
    }

    /** The branch of ProcessMRMLEvents for a modified crosshair node. */
    method OnCrosshairModified(screenW: int, screenH: int)
      requires Valid() && crosshairNode != null
      requires WillReposition() ==> sliceNode.Some?
      modifies this`actor, this`lightBoxRenderer, this`cache, renderers, ActorSet(actor)`position
      ensures Valid()
      ensures HandledCrosshairModified(screenW, screenH)
      ensures OnlyCrosshairActorMoved()
      ensures cache == crosshairNode.Snapshot()
      ensures OtherActorsKept()
      // a repeated event finds nothing to rebuild or move
      ensures !DidCrosshairPositionChange() && !DidCrosshairPropertyChange()
    {
      UpdateActor(screenW, screenH);
      forall r | r in old(renderers)
        ensures forall b :: b in old(r.actors) && b != old(actor) ==> b in r.actors
        ensures forall b :: b in r.actors && b != actor ==> b in old(r.actors)
      {
        SameOtherActors(old(r.actors), r.actors, actor, old(actor));
      }
      RefreshCache();
    }

    /** Rebuilds the actor when the mode or thickness changed, then moves it
        when it was rebuilt or the position changed. */
    method UpdateActor(screenW: int, screenH: int)
      requires Valid() && crosshairNode != null
      requires WillReposition() ==> sliceNode.Some?
      modifies this`actor, this`lightBoxRenderer, renderers, ActorSet(actor)`position
      ensures Valid()
      ensures HandledCrosshairModified(screenW, screenH)
      ensures OnlyCrosshairActorMoved()
    {
      var builtCrosshair := RebuildIfPropertyChanged(screenW, screenH);
      ghost var replaced := old(actor);
      assert replaced != null && actor != replaced ==> forall r :: r in renderers ==> replaced !in r.actors;
      label rebuilt:
      RepositionActor(builtCrosshair);
      forall r | r in renderers
        ensures OtherActors(r.actors, actor, replaced) == OtherActors(old(r.actors), actor, replaced)
      {
        OtherActorsStay(old(r.actors), old@rebuilt(r.actors), r.actors, actor, replaced);
      }
    }

    /** Copies the crosshair node into the cache, so the next event compares
        against the state just handled. */
    method RefreshCache()
      requires crosshairNode != null
      modifies this`cache
      ensures cache == crosshairNode.Snapshot()
    {
      cache := crosshairNode.Snapshot();
    }

    /** The event is the scene's own while it is updating, and is ignored. */
    function IgnoredWhileUpdating(caller: Caller): (ignored: bool)
      reads this`scene
      // only the scene's own events are dropped, and only while it updates
      ensures ignored ==> caller == SceneCaller
      ensures scene.None? || !scene.value.isUpdating ==> !ignored
    {
      caller == SceneCaller && scene.Some? && scene.value.isUpdating
    }

    /** The handling of an event that is not ignored: a scene reload rebinds
        the nodes and returns, a crosshair node's modification updates the
        actor, and every other event only requests a render. */
    method DispatchEvent(caller: Caller, event: MrmlEvent, screenW: int, screenH: int) returns (renderRequested: bool)
      requires Valid()
      requires IsSceneReload(event) ==> CanUpdateSliceNode()
      requires event == ModifiedEvent && caller == CrosshairNodeCaller ==>
        crosshairNode != null && (WillReposition() ==> sliceNode.Some?)
      modifies this`sliceCompositeNode, this`crosshairNode, this`actor, this`lightBoxRenderer, this`cache
      modifies renderers, ActorSet(actor)`position
      modifies CompositeSet(sliceCompositeNode)`observers, CrosshairSet(crosshairNode)`observers
      modifies SceneComposites(scene)`observers, SceneCrosshairs(scene)`observers
      ensures Valid()
      ensures IsSceneReload(event) ==>
        sliceCompositeNode == ResolvedComposite(scene, sliceNode, old(sliceCompositeNode)) &&
        crosshairNode == DefaultCrosshairOf(scene) &&
        CompositeRebound(old(sliceCompositeNode), sliceCompositeNode) &&
        CrosshairRebound(old(crosshairNode), crosshairNode) &&
        actor == old(actor) && cache == old(cache) && !renderRequested &&
        lightBoxRenderer == old(lightBoxRenderer) && unchanged(renderers)
      // no other node of the scene changes on a reload
      ensures IsSceneReload(event) ==>
        (forall c :: c in old(SceneComposites(scene)) && c != old(sliceCompositeNode) && c != sliceCompositeNode ==>
           c.observers == old(c.observers)) &&
        (forall c :: c in old(SceneCrosshairs(scene)) && c != old(crosshairNode) && c != crosshairNode ==>
           c.observers == old(c.observers))
      // only a reload changes a binding or any observer list
      ensures !IsSceneReload(event) ==> renderRequested && BindingsKept()
      ensures renderers == old(renderers)
      ensures event == ModifiedEvent && caller == CrosshairNodeCaller ==>
        CrosshairEventHandled(screenW, screenH)
      ensures !IsSceneReload(event) && !(event == ModifiedEvent && caller == CrosshairNodeCaller) ==>
        actor == old(actor) && cache == old(cache) && lightBoxRenderer == old(lightBoxRenderer) &&
        unchanged(renderers)
      // only a crosshair node's modification moves the actor
      ensures !(event == ModifiedEvent && caller == CrosshairNodeCaller) && old(actor) != null ==>
        old(actor).position == old(actor.position)
      ensures old(ObservesOnlyBound()) ==> ObservesOnlyBound()
    {
      if IsSceneReload(event) {
        OnSceneReload();
        return false;
      }
      OnNodeEvent(caller, event, screenW, screenH);
      renderRequested := true;
    }

    /** Neither binding changes, nor the observer list of a bound node or of
        any node of the scene. */
    twostate predicate BindingsKept()
      reads this`scene, this`crosshairNode, this`sliceCompositeNode
      reads SceneCrosshairs(scene), CrosshairSet(crosshairNode), SceneComposites(scene), CompositeSet(sliceCompositeNode)
    {
      scene == old(scene) && crosshairNode == old(crosshairNode) && sliceCompositeNode == old(sliceCompositeNode) &&
      (forall c :: c in SceneCrosshairs(scene) + CrosshairSet(crosshairNode) ==> c.observers == old(c.observers)) &&
      (forall c :: c in SceneComposites(scene) + CompositeSet(sliceCompositeNode) ==> c.observers == old(c.observers))
    }

    /** The handling of a scene reload: the nodes are bound afresh, and
        nothing but the bindings and the observer lists changes. */
    method OnSceneReload()
      requires Valid() && CanUpdateSliceNode()
      modifies this`sliceCompositeNode, this`crosshairNode, CompositeSet(sliceCompositeNode)`observers, CrosshairSet(crosshairNode)`observers
      modifies SceneComposites(scene)`observers, SceneCrosshairs(scene)`observers
      ensures Valid()
      ensures sliceCompositeNode == ResolvedComposite(scene, sliceNode, old(sliceCompositeNode)) &&
        crosshairNode == DefaultCrosshairOf(scene) &&
        CompositeRebound(old(sliceCompositeNode), sliceCompositeNode) &&
        CrosshairRebound(old(crosshairNode), crosshairNode)
      // no other node of the scene changes
      ensures forall c :: c in old(SceneComposites(scene)) && c != old(sliceCompositeNode) && c != sliceCompositeNode ==>
        c.observers == old(c.observers)
      ensures forall c :: c in old(SceneCrosshairs(scene)) && c != old(crosshairNode) && c != crosshairNode ==>
        c.observers == old(c.observers)
      ensures old(ObservesOnlyBound()) ==> ObservesOnlyBound()
    {
      UpdateSliceNode();
    }

    /** The handling of an event that is neither ignored nor a reload: only
        a crosshair node's modification does anything before the render
        request, and no binding or observer list changes. */
    method OnNodeEvent(caller: Caller, event: MrmlEvent, screenW: int, screenH: int)
      requires Valid()
      requires event == ModifiedEvent && caller == CrosshairNodeCaller ==>
        crosshairNode != null && (WillReposition() ==> sliceNode.Some?)
      modifies this`actor, this`lightBoxRenderer, this`cache, renderers, ActorSet(actor)`position
      ensures Valid()
      ensures renderers == old(renderers)
      ensures BindingsKept()
      ensures event == ModifiedEvent && caller == CrosshairNodeCaller ==>
        CrosshairEventHandled(screenW, screenH)
      ensures !(event == ModifiedEvent && caller == CrosshairNodeCaller) ==>
        actor == old(actor) && cache == old(cache) && lightBoxRenderer == old(lightBoxRenderer) &&
        unchanged(renderers) && (actor != null ==> actor.position == old(actor.position))
    {
      if event == ModifiedEvent {
        if caller == CrosshairNodeCaller {
          OnCrosshairModified(screenW, screenH);
        }
      }
    }

    method ProcessMRMLEvents(caller: Caller, event: MrmlEvent, screenW: int, screenH: int) returns (renderRequested: bool)
      requires Valid()
      requires !IgnoredWhileUpdating(caller) && IsSceneReload(event) ==> CanUpdateSliceNode()
      requires event == ModifiedEvent && caller == CrosshairNodeCaller ==>
        crosshairNode != null && (WillReposition() ==> sliceNode.Some?)
      modifies this`sliceCompositeNode, this`crosshairNode, this`actor, this`lightBoxRenderer, this`cache
      modifies renderers, ActorSet(actor)`position
      modifies CompositeSet(sliceCompositeNode)`observers, CrosshairSet(crosshairNode)`observers
      modifies SceneComposites(scene)`observers, SceneCrosshairs(scene)`observers
      ensures Valid()
      ensures scene == old(scene) && sliceNode == old(sliceNode) && lightBoxProxy == old(lightBoxProxy)
      // no event changes the crosshair node's position, mode or thickness
      ensures old(crosshairNode) != null ==> old(crosshairNode).Snapshot() == old(crosshairNode.Snapshot())
      ensures IgnoredWhileUpdating(caller) ==>
        !renderRequested && unchanged(this) && unchanged(renderers) && unchanged(ActorSet(actor)) &&
        unchanged(CrosshairSet(crosshairNode)) && unchanged(CompositeSet(sliceCompositeNode)) &&
        unchanged(SceneCrosshairs(scene)) && unchanged(SceneComposites(scene))
      ensures !IgnoredWhileUpdating(caller) && IsSceneReload(event) ==>
        sliceCompositeNode == ResolvedComposite(scene, sliceNode, old(sliceCompositeNode)) &&
        crosshairNode == DefaultCrosshairOf(scene) &&
        CompositeRebound(old(sliceCompositeNode), sliceCompositeNode) &&
        CrosshairRebound(old(crosshairNode), crosshairNode) &&
        actor == old(actor) && cache == old(cache) && !renderRequested &&
        lightBoxRenderer == old(lightBoxRenderer) && unchanged(renderers)
      // no other node of the scene changes on a reload
      ensures !IgnoredWhileUpdating(caller) && IsSceneReload(event) ==>
        (forall c :: c in old(SceneComposites(scene)) && c != old(sliceCompositeNode) && c != sliceCompositeNode ==>
           c.observers == old(c.observers)) &&
        (forall c :: c in old(SceneCrosshairs(scene)) && c != old(crosshairNode) && c != crosshairNode ==>
           c.observers == old(c.observers))
      // only a reload changes a binding or any observer list
      ensures !IgnoredWhileUpdating(caller) && !IsSceneReload(event) ==> renderRequested && BindingsKept()
      ensures renderers == old(renderers)
      ensures event == ModifiedEvent && caller == CrosshairNodeCaller ==>
        CrosshairEventHandled(screenW, screenH)
      ensures !IgnoredWhileUpdating(caller) && !IsSceneReload(event) &&
              !(event == ModifiedEvent && caller == CrosshairNodeCaller) ==>
        actor == old(actor) && cache == old(cache) && lightBoxRenderer == old(lightBoxRenderer) &&
        unchanged(renderers)
      // only a crosshair node's modification moves the actor
      ensures !(event == ModifiedEvent && caller == CrosshairNodeCaller) && old(actor) != null ==>
        old(actor).position == old(actor.position)
      ensures old(ObservesOnlyBound()) ==> ObservesOnlyBound()
    {
      if IgnoredWhileUpdating(caller) {
        return false;
      }
      renderRequested := DispatchEvent(caller, event, screenW, screenH);
    }

    /** Sets up the slice composite and crosshair nodes. */
    method Create()
      requires Valid() && CanUpdateSliceNode()
      modifies this`sliceCompositeNode, this`crosshairNode, CompositeSet(sliceCompositeNode)`observers, CrosshairSet(crosshairNode)`observers
      modifies SceneComposites(scene)`observers, SceneCrosshairs(scene)`observers
      ensures Valid()
      ensures sliceCompositeNode == ResolvedComposite(scene, sliceNode, old(sliceCompositeNode))
      ensures crosshairNode == DefaultCrosshairOf(scene)
      ensures CompositeRebound(old(sliceCompositeNode), sliceCompositeNode)
      ensures CrosshairRebound(old(crosshairNode), crosshairNode)
      ensures forall c :: c in old(SceneComposites(scene)) && c != old(sliceCompositeNode) && c != sliceCompositeNode ==>
        c.observers == old(c.observers)
      ensures forall c :: c in old(SceneCrosshairs(scene)) && c != old(crosshairNode) && c != crosshairNode ==>
        c.observers == old(c.observers)
      ensures old(ObservesOnlyBound()) ==> ObservesOnlyBound()
    {
      UpdateSliceNode();
    }

    /** Starts watching mouse moves and builds the first crosshair actor. */
    method AdditionalInitializeStep(screenW: int, screenH: int)
      requires Valid()
      modifies this`watchesMouseMove, this`actor, lightBoxRenderer
      ensures Valid()
      ensures watchesMouseMove
      ensures crosshairNode == null ==>
        actor == old(actor) && (lightBoxRenderer != null ==> lightBoxRenderer.actors == old(lightBoxRenderer.actors))
      ensures crosshairNode != null ==>
        actor != null && fresh(actor) && fresh(actor.polyData) && actor.position == (0.0, 0.0) &&
        ActorDraws(actor, crosshairNode.Snapshot(), screenW, screenH)
      ensures crosshairNode != null && lightBoxRenderer != null ==>
        lightBoxRenderer.actors == old(lightBoxRenderer.actors) - ActorSet(old(actor)) + {actor}
      // the replaced actor is left in no lightbox renderer
      ensures crosshairNode != null && old(actor) != null ==>
        forall r :: r in renderers ==> old(actor) !in r.actors
    {
      watchesMouseMove := true;
      BuildCrosshair(screenW, screenH);
    }

    /** Writes the RAS position under the pointer into the crosshair node;
        `xyz` is the pointer's view position, already resolved to its
        lightbox. */
    method OnInteractorStyleEvent(xyz: Vec3)
      requires Valid()
      requires crosshairNode != null ==> sliceNode.Some?
      modifies CrosshairSet(crosshairNode)`ras
      ensures Valid()
      ensures crosshairNode != null ==>
        crosshairNode.ras == sliceNode.value.xyToRas(xyz) &&
        crosshairNode.mode == old(crosshairNode.mode) && crosshairNode.thickness == old(crosshairNode.thickness)
      // projecting the written position back gives the pointer's view position
      ensures crosshairNode != null && ProjectionRoundTrips(sliceNode.value) ==>
        sliceNode.value.rasToXy(crosshairNode.ras) == xyz
    {
      if crosshairNode != null {
        var ras := sliceNode.value.xyToRas(xyz);
        crosshairNode.SetCrosshairRAS(ras);
      }
    }
  }
}
