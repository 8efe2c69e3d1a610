/** The parts of the MRML scene the crosshair displayable manager reads and
    writes: the shared crosshair node, the per-view slice composite node, the
    slice node of the view, and the scene as an ordered list of nodes. */
module Mrml {

  datatype Option<T> = None | Some(value: T)

  /** A point in RAS (world) or XYZ (view) coordinates. */
  datatype Vec3 = Vec3(x: real, y: real, z: real) {
    function At(i: nat): real
      requires i < 3
    {
      if i == 0 then x else if i == 1 then y else z
    }
  }

  /** The crosshair display modes; any other value of the node's mode field
      is an `OtherMode`, which the manager draws as nothing. */
  datatype CrosshairMode =
    | NoCrosshair
    | ShowBasic
    | ShowIntersection
    | ShowSmallBasic
    | ShowSmallIntersection
    | OtherMode(code: int)

  datatype CrosshairThickness = Fine | Medium | Thick | OtherThickness(code: int)

  /** The by-value copy of a crosshair node that the manager keeps to detect changes. */
  datatype CrosshairSnapshot = CrosshairSnapshot(ras: Vec3, mode: CrosshairMode, thickness: CrosshairThickness)

  /** The shared crosshair node.  `observers` holds one entry per registered
      modified-event callback command, as a VTK object's observer list does. */
  class CrosshairNode {
    const name: string
    var ras: Vec3
    var mode: CrosshairMode
    var thickness: CrosshairThickness
    var observers: multiset<object>

    constructor (name: string, ras: Vec3, mode: CrosshairMode, thickness: CrosshairThickness)
      ensures this.name == name && this.ras == ras && this.mode == mode && this.thickness == thickness
      ensures observers == multiset{}
    {
      this.name := name;
      this.ras := ras;
      this.mode := mode;
      this.thickness := thickness;
      observers := multiset{};
    }

    function Snapshot(): CrosshairSnapshot
      reads this
    {
      CrosshairSnapshot(ras, mode, thickness)
    }

    method SetCrosshairRAS(p: Vec3)
      modifies this`ras
      ensures ras == p
    {
      ras := p;
    }

    /** Registers one more callback for modified events. */
    method AddObserver(command: object)
      modifies this`observers
      ensures observers == old(observers) + multiset{command}
    {
      observers := observers + multiset{command};
    }

    /** Removes every registration of `command`. */
    method RemoveObserver(command: object)
      modifies this`observers
      ensures observers == old(observers)[command := 0]
    {
      observers := observers[command := 0];
    }
  }

  /** The slice composite node of one view; it is found by its layout name,
      which may be unset. */
  class SliceCompositeNode {
    const layoutName: Option<string>
    var observers: multiset<object>

    constructor (layoutName: Option<string>)
      ensures this.layoutName == layoutName && observers == multiset{}
    {
      this.layoutName := layoutName;
      observers := multiset{};
    }

    method AddObserver(command: object)
      modifies this`observers
      ensures observers == old(observers) + multiset{command}
    {
      observers := observers + multiset{command};
    }

    method RemoveObserver(command: object)
      modifies this`observers
      ensures observers == old(observers)[command := 0]
    {
      observers := observers[command := 0];
    }
  }

  /** The slice node of the view.  Its layout name is always set.  `xyToRas`
      is its XYToRAS matrix applied to a point followed by the homogeneous
      divide; `rasToXy` is the same for the inverse matrix. */
  datatype SliceNode = SliceNode(layoutName: string, xyToRas: Vec3 -> Vec3, rasToXy: Vec3 -> Vec3)

  /** The two maps of a slice node undo each other. */
  ghost predicate ProjectionRoundTrips(s: SliceNode)
  {
    forall p :: s.rasToXy(s.xyToRas(p)) == p
  }

  datatype SceneNode =
    | CrosshairEntry(crosshair: CrosshairNode)
    | CompositeEntry(composite: SliceCompositeNode)
    | OtherEntry(className: string)

  datatype MrmlScene = MrmlScene(nodes: seq<SceneNode>, isUpdating: bool)

  /** The crosshair nodes of the scene, whose observer lists the manager may change. */
  function SceneCrosshairs(scene: Option<MrmlScene>): set<CrosshairNode>
  {
    if scene.None? then {}
    else set e | e in scene.value.nodes && e.CrosshairEntry? :: e.crosshair
  }

  /** The slice composite nodes of the scene, whose observer lists the manager may change. */
  function SceneComposites(scene: Option<MrmlScene>): set<SliceCompositeNode>
  {
    if scene.None? then {}
    else set e | e in scene.value.nodes && e.CompositeEntry? :: e.composite
  }

  /** The node as a frame: empty when it is missing. */
  function CrosshairSet(c: CrosshairNode?): set<CrosshairNode>
  {
    if c == null then {} else {c}
  }

  function CompositeSet(c: SliceCompositeNode?): set<SliceCompositeNode>
  {
    if c == null then {} else {c}
  }

  predicate IsDefaultCrosshair(e: SceneNode)
  {
    e.CrosshairEntry? && e.crosshair.name == "default"
  }

  predicate IsCompositeFor(e: SceneNode, layout: string)
  {
    e.CompositeEntry? && e.composite.layoutName == Some(layout)
  }

  /** The index of the first crosshair node named "default" at or after
      `from`, or |nodes| when there is none. */
  function FirstDefaultCrosshair(nodes: seq<SceneNode>, from: nat): (k: nat)
    requires from <= |nodes|
    ensures from <= k <= |nodes|
    ensures k < |nodes| ==> IsDefaultCrosshair(nodes[k])
    ensures forall j :: from <= j < k ==> !IsDefaultCrosshair(nodes[j])
    decreases |nodes| - from
  {
    if from == |nodes| then from
    else if IsDefaultCrosshair(nodes[from]) then from
    else FirstDefaultCrosshair(nodes, from + 1)
  }

  /** The index of the first slice composite node at or after `from` whose
      layout name is `layout`, or |nodes| when there is none. */
  function FirstCompositeFor(nodes: seq<SceneNode>, layout: string, from: nat): (k: nat)
    requires from <= |nodes|
    ensures from <= k <= |nodes|
    ensures k < |nodes| ==> IsCompositeFor(nodes[k], layout)
    ensures forall j :: from <= j < k ==> !IsCompositeFor(nodes[j], layout)
    decreases |nodes| - from
  {
    if from == |nodes| then from
    else if IsCompositeFor(nodes[from], layout) then from
    else FirstCompositeFor(nodes, layout, from + 1)
  }

  /** The crosshair node the manager binds to: the first one named "default",
      or none when the scene is missing or holds no such node. */
  function DefaultCrosshairOf(scene: Option<MrmlScene>): (c: CrosshairNode?)
    ensures c != null ==> scene.Some? && CrosshairEntry(c) in scene.value.nodes && c.name == "default"
    ensures c == null && scene.Some? ==> forall e :: e in scene.value.nodes ==> !IsDefaultCrosshair(e)
    ensures c != null ==> c in SceneCrosshairs(scene)
  {
    if scene.None? then null
    else
      var nodes := scene.value.nodes;
      var k := FirstDefaultCrosshair(nodes, 0);
      if k < |nodes| then
        assert nodes[k] == CrosshairEntry(nodes[k].crosshair);
        nodes[k].crosshair
      else null
  }

  /** The slice composite node of the view whose slice node is `slice`: the
      first one with the same layout name, or none when the scene or the
      slice node is missing or no composite node matches. */
  function CompositeOf(scene: Option<MrmlScene>, slice: Option<SliceNode>): (c: SliceCompositeNode?)
    ensures c != null ==> scene.Some? && slice.Some? && CompositeEntry(c) in scene.value.nodes
    ensures c != null ==> c.layoutName == Some(slice.value.layoutName)
    ensures c == null && scene.Some? && slice.Some? ==>
      forall e :: e in scene.value.nodes ==> !IsCompositeFor(e, slice.value.layoutName)
    ensures c != null ==> c in SceneComposites(scene)
  {
    if scene.None? || slice.None? then null
    else
      var nodes := scene.value.nodes;
      var k := FirstCompositeFor(nodes, slice.value.layoutName, 0);
      if k < |nodes| then
        assert nodes[k] == CompositeEntry(nodes[k].composite);
        nodes[k].composite
      else null
  }
}
