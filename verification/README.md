# Crosshair displayable manager of a 2D slice view

This project models the crosshair displayable manager of 3D Slicer's 2D slice
views (`vtkMRMLCrosshairDisplayableManager`). The manager binds to the scene's
crosshair node named "default" and to the slice composite node of its view,
keeps a private cached copy of the crosshair node, and keeps a 2D crosshair
actor in step with the node:

- when the node's mode or thickness changes, it rebuilds the actor from a
  per-mode table of line segments, with a line width per thickness and
  visibility off only for `NoCrosshair`;
- after a rebuild, or when the node's RAS position changed and an actor
  exists, it projects the position into the view and moves the actor there
  and into the lightbox sub-renderer for the projected depth;
- it then refreshes the cache, so a repeated event changes nothing;
- pointer moves write the RAS position under the pointer into the node.

Modules:

- `Mrml` (mrml.dfy): crosshair node, slice composite node, slice node, scene
  as an ordered node list, and the first-match searches that bind the manager.
- `CrosshairGeometry` (geometry.dfy): the segment table per mode, the point
  list and cell array a build produces, and the line width and visibility.
- `Rendering` (rendering.dfy): poly data, 2D actor, lightbox renderers and
  the lightbox renderer manager proxy.
- `CrosshairManager` (manager.dfy): the manager as a class whose `Valid()`
  invariant says that the actor sits in the current lightbox renderer and in
  no other, and that each bound node has the manager among its observers.
  Each node-binding operation also keeps `ObservesOnlyBound()`: among the
  scene's nodes the manager is registered once with each bound node and
  with no other node.

## Model

| member | source | states |
|---|---|---|
| Mrml.FirstDefaultCrosshair | Libs/MRMLDisplayableManager/vtkMRMLCrosshairDisplayableManager.cxx:287-303 | the index found is the first crosshair node named "default" at or after the start, or the end when none exists |
| Mrml.FirstCompositeFor | Libs/MRMLDisplayableManager/vtkMRMLCrosshairDisplayableManager.cxx:216-233 | the index found is the first slice composite node whose layout name equals the given one, or the end when none exists |
| Mrml.DefaultCrosshairOf | Libs/MRMLDisplayableManager/vtkMRMLCrosshairDisplayableManager.cxx:279-304 | the node bound is a scene crosshair node named "default"; none when there is no scene or no such node |
| Mrml.CompositeOf | Libs/MRMLDisplayableManager/vtkMRMLCrosshairDisplayableManager.cxx:207-234 | the node bound is a scene composite node with the slice node's layout name; none when the scene or slice node is missing or nothing matches |
| CrosshairManager.CompositeBindingStale | Libs/MRMLDisplayableManager/vtkMRMLCrosshairDisplayableManager.cxx:191-194 | a bound composite node is kept exactly when the search would accept it (it has the slice node's layout name); a missing one is always replaced |
| CrosshairManager.ResolvedComposite | Libs/MRMLDisplayableManager/vtkMRMLCrosshairDisplayableManager.cxx:190-199 | a bound node that still belongs to the view is kept, otherwise the search result is taken; whatever ends up bound belongs to the view |
| CrosshairGeometry.CrosshairSegments | Libs/MRMLDisplayableManager/vtkMRMLCrosshairDisplayableManager.cxx:327-401 | every segment lies on the vertical or horizontal axis; no segment exactly for NoCrosshair and unknown modes |
| CrosshairGeometry.PointsOf | Libs/MRMLDisplayableManager/vtkMRMLCrosshairDisplayableManager.cxx:437-445 | adding segments one by one yields two points per segment |
| CrosshairGeometry.LinesOf | Libs/MRMLDisplayableManager/vtkMRMLCrosshairDisplayableManager.cxx:442-444 | adding n lines yields n cells |
| CrosshairGeometry.AppendSegment | Libs/MRMLDisplayableManager/vtkMRMLCrosshairDisplayableManager.cxx:437-445 | one more segment appends its two ends and one cell over exactly those two new point ids |
| CrosshairGeometry.PointsOfAt | Libs/MRMLDisplayableManager/vtkMRMLCrosshairDisplayableManager.cxx:439-440 | points 2k and 2k+1 are the start and end of segment k |
| CrosshairGeometry.LinesOfAt | Libs/MRMLDisplayableManager/vtkMRMLCrosshairDisplayableManager.cxx:442-444 | cell k joins point 2k to point 2k+1 |
| CrosshairGeometry.LinesDrawSegments | Libs/MRMLDisplayableManager/vtkMRMLCrosshairDisplayableManager.cxx:437-445 | every cell refers to existing points and cell k is drawn exactly between the ends of segment k |
| CrosshairGeometry.SegmentCounts | Libs/MRMLDisplayableManager/vtkMRMLCrosshairDisplayableManager.cxx:363-401 | the basic modes draw four segments, the intersection modes two, all other modes none |
| CrosshairGeometry.BasicModesKeepGap | Libs/MRMLDisplayableManager/vtkMRMLCrosshairDisplayableManager.cxx:367-392 | the basic modes leave a 5-pixel gap around the centre on both axes; for ShowBasic only on screens at least 5 pixels wide and tall, since on a smaller screen its arms reach into the gap |
| CrosshairGeometry.IntersectionModesCrossCentre | Libs/MRMLDisplayableManager/vtkMRMLCrosshairDisplayableManager.cxx:377-398 | the intersection modes draw through the centre |
| CrosshairGeometry.SmallModesIgnoreScreenSize | Libs/MRMLDisplayableManager/vtkMRMLCrosshairDisplayableManager.cxx:383-398 | only ShowBasic and ShowIntersection depend on the screen size |
| CrosshairGeometry.SegmentsPointSymmetric | Libs/MRMLDisplayableManager/vtkMRMLCrosshairDisplayableManager.cxx:327-401 | every mode's drawing is symmetric through the centre |
| CrosshairGeometry.LineWidth | Libs/MRMLDisplayableManager/vtkMRMLCrosshairDisplayableManager.cxx:406-418 | a width is set exactly for Fine, Medium and Thick, and it is 1, 3 or 5 |
| CrosshairGeometry.IsVisible | Libs/MRMLDisplayableManager/vtkMRMLCrosshairDisplayableManager.cxx:425-433 | the actor is hidden exactly for NoCrosshair; every other mode, an unknown one included, is visible |
| CrosshairGeometry.VisibleIffDrawnOrUnrecognised | Libs/MRMLDisplayableManager/vtkMRMLCrosshairDisplayableManager.cxx:425-433 | the actor is visible exactly when it draws segments or the mode is unknown, which is visible with no segments |
| Rendering.LightBoxTarget | Libs/MRMLDisplayableManager/vtkMRMLCrosshairDisplayableManager.cxx:516-532 | without a proxy the current renderer is kept; with one, the renderer chosen for the depth is one of the proxy's renderers (or none) |
| Rendering.LightBoxTargetIdempotent | Libs/MRMLDisplayableManager/vtkMRMLCrosshairDisplayableManager.cxx:517-534 | routing a second time to the same depth keeps the renderer already chosen |
| CrosshairManager.ResolvedCompositeIdempotent | Libs/MRMLDisplayableManager/vtkMRMLCrosshairDisplayableManager.cxx:191-199 | re-resolving the composite binding keeps the node the first resolution chose |
| CrosshairManager.CrosshairDisplayableManager.constructor | Libs/MRMLDisplayableManager/vtkMRMLCrosshairDisplayableManager.cxx:106-117 | starts with no bound nodes, actor, lightbox renderer or proxy, and a default cache, and observes no node of the scene |
| CrosshairManager.CrosshairDisplayableManager.DidCrosshairPositionChange | Libs/MRMLDisplayableManager/vtkMRMLCrosshairDisplayableManager.cxx:132-153 | false with no bound node; otherwise true exactly when some coordinate differs from the cached one by at least 1e-12 |
| CrosshairManager.CrosshairDisplayableManager.DidCrosshairPropertyChange | Libs/MRMLDisplayableManager/vtkMRMLCrosshairDisplayableManager.cxx:156-176 | false with no bound node; otherwise true exactly when mode or thickness differs from the cache |
| CrosshairManager.CrosshairDisplayableManager.WillReposition | Libs/MRMLDisplayableManager/vtkMRMLCrosshairDisplayableManager.cxx:493-501 | the actor will be moved only with a bound node; with no actor exactly when it is about to be rebuilt; never when neither position nor properties changed |
| CrosshairManager.CrosshairDisplayableManager.RefreshedCacheSeesNoChange | Libs/MRMLDisplayableManager/vtkMRMLCrosshairDisplayableManager.cxx:539-540 | once the cache copies the node, neither change predicate fires |
| CrosshairManager.CrosshairDisplayableManager.FindSliceCompositeNode | Libs/MRMLDisplayableManager/vtkMRMLCrosshairDisplayableManager.cxx:207-234 | the loop returns the first composite node matching the slice node's layout name, or none |
| CrosshairManager.CrosshairDisplayableManager.FindCrosshairNode | Libs/MRMLDisplayableManager/vtkMRMLCrosshairDisplayableManager.cxx:279-304 | the loop returns the first crosshair node named "default", or none |
| CrosshairManager.CrosshairDisplayableManager.SetSliceCompositeNode | Libs/MRMLDisplayableManager/vtkMRMLCrosshairDisplayableManager.cxx:237-255 | binding the same node changes no observer list; otherwise the old node loses the manager's callback and the new one gains it once; nothing but the binding and those two observer lists changes |
| CrosshairManager.CrosshairDisplayableManager.SetCrosshairNode | Libs/MRMLDisplayableManager/vtkMRMLCrosshairDisplayableManager.cxx:258-276 | binding the same node changes no observer list; otherwise the old node loses the manager's callback and the new one gains it once; both nodes keep their position, mode and thickness |
| CrosshairManager.CrosshairDisplayableManager.RebindComposite | Libs/MRMLDisplayableManager/vtkMRMLCrosshairDisplayableManager.cxx:190-199 | the composite node is searched again only when the bound one is stale, with the observer lists of the old and new node updated and no other composite node touched; the manager still observes only the bound composite node, once; crosshair nodes are not touched |
| CrosshairManager.CrosshairDisplayableManager.RebindCrosshair | Libs/MRMLDisplayableManager/vtkMRMLCrosshairDisplayableManager.cxx:201-203 | the default crosshair node is bound, with the observer lists of the old and new node updated and no other crosshair node touched; the manager still observes only the bound crosshair node, once; composite nodes are not touched |
| CrosshairManager.CrosshairDisplayableManager.UpdateSliceNode | Libs/MRMLDisplayableManager/vtkMRMLCrosshairDisplayableManager.cxx:187-204 | the composite node is searched again only when the bound one is stale, the crosshair node always; only the observer lists of the old and new nodes change; a second update would bind the same nodes and so change nothing; the manager still observes only the bound nodes, each once |
| CrosshairManager.CrosshairDisplayableManager.AddCrosshairLine | Libs/MRMLDisplayableManager/vtkMRMLCrosshairDisplayableManager.cxx:437-445 | appends exactly the two end points and one cell over their new ids, and nothing else |
| CrosshairManager.CrosshairDisplayableManager.AddModeLines | Libs/MRMLDisplayableManager/vtkMRMLCrosshairDisplayableManager.cxx:327-401 | from the screen size, the switch fills an empty poly data with exactly the points and cells of the mode's segment table |
| CrosshairManager.CrosshairDisplayableManager.DrawSegment | Libs/MRMLDisplayableManager/vtkMRMLCrosshairDisplayableManager.cxx:437-445 | after one more line, the poly data holds exactly the segments drawn so far followed by the new one |
| CrosshairManager.CrosshairDisplayableManager.RemoveActor | Libs/MRMLDisplayableManager/vtkMRMLCrosshairDisplayableManager.cxx:314-322 | the old actor leaves the current lightbox renderer and is then in no renderer |
| CrosshairManager.CrosshairDisplayableManager.AddNewActor | Libs/MRMLDisplayableManager/vtkMRMLCrosshairDisplayableManager.cxx:342-360 | a fresh empty actor joins the current lightbox renderer and becomes the actor |
| CrosshairManager.CrosshairDisplayableManager.SetActorStyle | Libs/MRMLDisplayableManager/vtkMRMLCrosshairDisplayableManager.cxx:403-433 | the width becomes the thickness's width, and stays what it was for an unknown thickness; visibility is off exactly for NoCrosshair |
| CrosshairManager.CrosshairDisplayableManager.BuildCrosshair | Libs/MRMLDisplayableManager/vtkMRMLCrosshairDisplayableManager.cxx:307-434 | nothing happens with no bound node; otherwise a fresh actor draws the node's mode and thickness, the renderer swaps the old actor for it, and the old actor is in no renderer |
| CrosshairManager.CrosshairDisplayableManager.PutActorInLightBox | Libs/MRMLDisplayableManager/vtkMRMLCrosshairDisplayableManager.cxx:516-534 | the current renderer becomes the proxy's renderer for the depth; no renderer changes when it is the same one, otherwise the actor moves from the old to the new |
| CrosshairManager.CrosshairDisplayableManager.MoveActorToCrosshair | Libs/MRMLDisplayableManager/vtkMRMLCrosshairDisplayableManager.cxx:503-534 | the actor is placed at the projected view position and routed by the projected depth; only the actor moves between renderers |
| CrosshairManager.CrosshairDisplayableManager.ActorInAtMostOneRenderer | Libs/MRMLDisplayableManager/vtkMRMLCrosshairDisplayableManager.cxx:517-534 | the actor is displayed by at most one lightbox renderer, the current one |
| CrosshairManager.CrosshairDisplayableManager.SetLightBoxRendererManagerProxy | Libs/MRMLDisplayableManager/vtkMRMLCrosshairDisplayableManager.cxx:627-630 | the proxy is stored; the actor is not moved |
| CrosshairManager.CrosshairDisplayableManager.RebuildIfPropertyChanged | Libs/MRMLDisplayableManager/vtkMRMLCrosshairDisplayableManager.cxx:491-497 | the actor is rebuilt exactly when mode or thickness changed; the rebuilt actor draws the node and replaces the old one in its renderer; no other actor changes renderer |
| CrosshairManager.CrosshairDisplayableManager.RepositionActor | Libs/MRMLDisplayableManager/vtkMRMLCrosshairDisplayableManager.cxx:499-537 | when the position changed or the actor was just rebuilt, the actor goes to the projected position and lightbox; otherwise no position or renderer changes; only the actor moves between renderers |
| CrosshairManager.CrosshairDisplayableManager.UpdateActor | Libs/MRMLDisplayableManager/vtkMRMLCrosshairDisplayableManager.cxx:491-537 | rebuild exactly when properties changed, reposition exactly when rebuilt or moved with an actor; a kept actor keeps its drawing and style; a replaced actor is in no renderer; no other actor changes renderer |
| CrosshairManager.CrosshairDisplayableManager.RefreshCache | Libs/MRMLDisplayableManager/vtkMRMLCrosshairDisplayableManager.cxx:539-540 | the cache equals the node's position, mode and thickness |
| CrosshairManager.CrosshairDisplayableManager.OnCrosshairModified | Libs/MRMLDisplayableManager/vtkMRMLCrosshairDisplayableManager.cxx:487-541 | what UpdateActor states, plus: every other actor keeps its renderers, the cache is refreshed, and a repeated event finds nothing to rebuild or move |
| CrosshairManager.CrosshairDisplayableManager.DispatchEvent | Libs/MRMLDisplayableManager/vtkMRMLCrosshairDisplayableManager.cxx:479-569 | a reload rebinds the nodes, asks for no render and changes the observer list of no scene node but the old and new bindings; every other event asks for one render and keeps the bindings and every observer list of the scene's and the bound nodes; only a crosshair node's modification touches the actor, its position, its renderers and the cache; the manager still observes only the bound nodes, each once |
| CrosshairManager.CrosshairDisplayableManager.OnSceneReload | Libs/MRMLDisplayableManager/vtkMRMLCrosshairDisplayableManager.cxx:479-483 | a reload binds the view's composite node and the default crosshair node, updating only the old and new nodes' observer lists (every other scene node keeps its own); the manager still observes only the bound nodes, each once |
| CrosshairManager.CrosshairDisplayableManager.OnNodeEvent | Libs/MRMLDisplayableManager/vtkMRMLCrosshairDisplayableManager.cxx:485-541 | a crosshair node's modification is handled as OnCrosshairModified states; any other event changes neither the actor, its position, the renderers nor the cache; no event here changes a binding or an observer list |
| CrosshairManager.CrosshairDisplayableManager.ProcessMRMLEvents | Libs/MRMLDisplayableManager/vtkMRMLCrosshairDisplayableManager.cxx:470-570 | an updating scene's events change nothing at all and ask for no render; otherwise as DispatchEvent, so only a reload changes a binding or an observer list, and then only those of the old and new bindings and only a crosshair node's modification moves the actor; no event changes the scene, the slice node, the proxy, or the crosshair node's position, mode and thickness; the manager still observes only the bound nodes, each once |
| CrosshairManager.IsSceneReload | Libs/MRMLDisplayableManager/vtkMRMLCrosshairDisplayableManager.cxx:479-480 | only the scene-imported and scene-restored events rebind; a modification or any other event never does |
| CrosshairManager.CrosshairDisplayableManager.IgnoredWhileUpdating | Libs/MRMLDisplayableManager/vtkMRMLCrosshairDisplayableManager.cxx:474-475 | only the scene's own events are dropped, and only while the scene is updating |
| CrosshairManager.CrosshairDisplayableManager.Create | Libs/MRMLDisplayableManager/vtkMRMLCrosshairDisplayableManager.cxx:573-577 | binds the view's composite node and the default crosshair node; only the observer lists of the old and new nodes change; from a new manager, it leaves the manager observing the bound nodes once each and no other scene node |
| CrosshairManager.CrosshairDisplayableManager.AdditionalInitializeStep | Libs/MRMLDisplayableManager/vtkMRMLCrosshairDisplayableManager.cxx:616-623 | watches mouse moves; with no bound node no renderer changes, otherwise a fresh actor at the origin draws the node, replaces the old actor in the current renderer, and the old actor is in no renderer |
| CrosshairManager.CrosshairDisplayableManager.OnInteractorStyleEvent | Libs/MRMLDisplayableManager/vtkMRMLCrosshairDisplayableManager.cxx:580-605 | writes the pointer's RAS position into the bound node, keeping its mode and thickness; only when the slice node's two projections are inverse to each other (the `ProjectionRoundTrips` hypothesis) does projecting it back give the pointer's view position |

## Left out

- Matrix work: inverting XYToRAS, multiplying a point and the homogeneous divide (lines 503-511 and 599-600) are the slice node's `rasToXy` and `xyToRas` function fields; their round trip is the hypothesis `ProjectionRoundTrips`, not proved.
- The pointer-to-view conversion (`ConvertDeviceToXYZ`, the interactor's event position, lines 592-597) is the parameter `xyz` of `OnInteractorStyleEvent`; the superclass call at line 586 is not modelled.
- Coordinates are `real`; IEEE rounding of the 1e-12 test and of the projection is not modelled.
- The screen size (line 325) is the pair of parameters `screenW`, `screenH`; the `-1.0*` conversion to `int` is exact for integer sizes and is written as negation.
- Mapper construction, colour and opacity (lines 349-352, 421-422) are not modelled; `RequestRender` (line 569) is a call into the view, so `ProcessMRMLEvents` returns whether it makes it.
- Rendering itself, the manager's `HighlightActor` field (declared at line 96 and set to null at line 113, never used otherwise), `PrintSelf`, `ActiveInteractionModes`, the destructor and the commented-out handlers (lines 543-566) are not modelled.
- The failing `assert(0)` after an unsuccessful search (lines 232, 302) is modelled as the release-build behaviour: the search returns none.
- The crosshair node's header is not part of this model: its enum values are datatype constructors with an `OtherMode`/`OtherThickness` case for any other value, and a new node's defaults are the constructor's `initialCache` parameter.
- The manager's callback command is identified with the manager itself in observer lists; the notifications a node sends back when it is changed (for example after `SetCrosshairRAS`) are not re-entered.
- The scene is a fixed value: no node is added to or removed from it and its `IsUpdating` flag never toggles while the manager runs. The manager holds its slice composite and crosshair nodes as plain references, where the source holds `vtkWeakPointer`s (lines 93-94) that turn null when the scene deletes a node (the case the comment at line 191 names); a deleted node is modelled only as a binding that is already null. The lightbox renderer and the lightbox proxy (lines 98-99) are weak pointers too and are likewise held as plain references.
- The slice node is fixed when the manager is constructed (`sliceNode`), while the source asks the view for it afresh each time (line 183); a view that switches to another slice node is not modelled.
- A slice composite node's layout name is a `const` field and the slice node is fixed, so a composite node that the search has bound never becomes stale later: the staleness test at lines 191-194 is modelled in full (`CompositeBindingStale`), but a composite node whose layout name changes to point to another slice node (the case the comment at line 192 names) is not modelled as a state change.
- The lightbox proxy's `GetRenderer` is an abstract function field; its renderers form the ghost set `renderers`.
- CrosshairManager.CrosshairDisplayableManager.UpdateSliceNode: requires `CanUpdateSliceNode()`, since lines 193-194 dereference the slice node when the bound composite node has a layout name.
- CrosshairManager.CrosshairDisplayableManager.OnCrosshairModified: requires a bound crosshair node (line 540 copies it) and a slice node when a reposition will happen (line 504 dereferences it).
- CrosshairManager.CrosshairDisplayableManager.ProcessMRMLEvents: requires what `UpdateSliceNode` and `OnCrosshairModified` require on the paths that call them; a crosshair node's event is handled against the bound node's state.
- CrosshairManager.CrosshairDisplayableManager.DispatchEvent: requires what `ProcessMRMLEvents` requires of an event it does not ignore.
- CrosshairManager.CrosshairDisplayableManager.OnSceneReload: requires what `UpdateSliceNode` requires.
- CrosshairManager.CrosshairDisplayableManager.OnNodeEvent: requires what `OnCrosshairModified` requires, for a crosshair node's modification only.
- CrosshairManager.CrosshairDisplayableManager.UpdateSliceNode, Create, DispatchEvent, ProcessMRMLEvents, OnSceneReload: `ObservesOnlyBound()` is stated as kept (`old(ObservesOnlyBound()) ==> ObservesOnlyBound()`), not as established, because a manager's observer lists can be seeded arbitrarily before the first call; the constructor establishes it.
- CrosshairManager.CrosshairDisplayableManager.UpdateActor: requires what `OnCrosshairModified` requires.
- CrosshairManager.CrosshairDisplayableManager.OnInteractorStyleEvent: requires a slice node when a crosshair node is bound (line 599 dereferences it).
- CrosshairManager.CrosshairDisplayableManager.SetLightBoxRendererManagerProxy: requires that no other code has put the actor in one of the new proxy's renderers, so that the renderer invariant holds.
