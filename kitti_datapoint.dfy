/** The label decision of the bounding-box code: classify the agent's type tag,
    gate on the vertex counts and on the area of the projected 2D box, and
    build a KITTI-style label record for an accepted agent. */
module KittiDatapoint {
  import opened CameraUtils
  import opened Strings
  import opened Occlusion

  /** At least this many vertices must be visible, and fewer than this many
      outside the camera, for an agent to be labelled. */
  const MinVisibleVerticesForRender: nat := 4
  /** A projected 2D box smaller than this many square pixels is filtered out. */
  const MinBboxAreaInPx: real := 100.0
  /** The render depth `create_kitti_datapoint` uses when its caller gives none. */
  const DefaultMaxRenderDepth: real := 70.0

  datatype Option<T> = None | Some(value: T)

  datatype Vec3 = Vec3(x: real, y: real, z: real)
  datatype Rotation = Rotation(pitch: real, yaw: real, roll: real)
  /** A simulator transform; one built from a location alone has no rotation. */
  datatype Transform = Transform(location: Vec3, rotation: Rotation)
  const NoRotation := Rotation(0.0, 0.0, 0.0)

  /** The agent's bounding box: its offset from the agent's origin and its
      half-sizes along the agent's axes. */
  datatype AgentBoundingBox = AgentBoundingBox(location: Vec3, extent: Vec3)
  /** The snapshot of a simulator agent that this code reads. */
  datatype Agent = Agent(typeId: string, transform: Transform, boundingBox: AgentBoundingBox)

  /** The KITTI object classes an agent can be given. */
  datatype ObjectType = Pedestrian | Car {
    /** The class name written in the label. */
    function Name(): string {
      match this
      case Pedestrian => "Pedestrian"
      case Car => "Car"
    }
  }

  /** What `transforms_from_agent` returns for a recognised agent. */
  datatype AgentTransforms = AgentTransforms(
    objType: ObjectType, agentTransform: Transform, bboxTransform: Transform, ext: Vec3, location: Vec3)

  /** The projections of the agent's box: the 8 corners and the reference point
      in the camera image (pixel x, pixel y, depth) and in the sensor frame. */
  datatype BoxGeometry = BoxGeometry(
    cameraBbox: seq<Projected>, cameraRefpoint: Projected, sensorBbox: seq<Vec3>, sensorRefpoint: Vec3)

  /** The fields of the label that this code sets; the type is the class name. */
  datatype KittiDescriptor = KittiDescriptor(
    objType: string, bbox: Bbox2d, dimensions: Vec3, location: Vec3, rotationY: real)

  /** Why an agent gets no label. */
  datatype Rejection =
    | UnknownObjectType
    | TooFewVisibleVertices(counts: VertexCounts)
    | AreaTooSmall(area: real)

  /** The one outcome of `create_kitti_datapoint`: no label, with the gate that
      refused it, or a label together with the projected corners. */
  datatype Outcome =
    | Rejected(reason: Rejection)
    | Accepted(datapoint: KittiDescriptor, cameraBbox: seq<Projected>)

  /** The class a type tag maps to: a tag mentioning "pedestrian" is a
      pedestrian even when it also mentions "vehicle"; one mentioning only
      "vehicle" is a car; any other tag has no class. */
  function ObjectTypeOf(typeId: string): (t: Option<ObjectType>)
    ensures Contains(typeId, "pedestrian") ==> t == Some(Pedestrian)
    ensures !Contains(typeId, "pedestrian") && Contains(typeId, "vehicle") ==> t == Some(Car)
    ensures t.None? <==> !Contains(typeId, "pedestrian") && !Contains(typeId, "vehicle")
  {
    if Contains(typeId, "pedestrian") then Some(Pedestrian)
    else if Contains(typeId, "vehicle") then Some(Car)
    else None
  }

  /** `transforms_from_agent`: nothing for an unclassified agent; otherwise its
      class, its transform, a rotation-free transform at its box offset, its
      box extent and its location. */
  function TransformsFromAgent(agent: Agent): (r: Option<AgentTransforms>)
    ensures r.None? <==> ObjectTypeOf(agent.typeId).None?
    ensures r.Some? ==> r.value == AgentTransforms(
      ObjectTypeOf(agent.typeId).value, agent.transform, Transform(agent.boundingBox.location, NoRotation),
      agent.boundingBox.extent, agent.transform.location)
  {
    match ObjectTypeOf(agent.typeId)
    case None => None
    case Some(objType) =>
      var agentTransform := agent.transform;
      var bboxTransform := Transform(agent.boundingBox.location, NoRotation);
      Some(AgentTransforms(objType, agentTransform, bboxTransform, agent.boundingBox.extent, agentTransform.location))
  }

  /** `calc_bbox2d_area`: height times width. The area of a well-formed box is
      never negative, and a box with no width or no height has none. */
  function CalcBbox2dArea(b: Bbox2d): (area: real)
    ensures b.xmin <= b.xmax && b.ymin <= b.ymax ==> area >= 0.0
    ensures b.xmin == b.xmax || b.ymin == b.ymax ==> area == 0.0
  {
    (b.ymax - b.ymin) * (b.xmax - b.xmin)
  }

  /** The visibility gate `num_visible >= MIN > num_outside`, read as the two
      comparisons it chains. */
  predicate PassesVisibilityGate(c: VertexCounts) {
    c.visible >= MinVisibleVerticesForRender && c.outside < MinVisibleVerticesForRender
  }

  /** `create_kitti_datapoint` with the box geometry, the helpers and the
      relative heading (already reduced modulo pi) given. The three gates apply
      in order: an unclassified type, then the vertex counts, then the area of
      the 2D box over all projected corners; an agent that clears all three is
      labelled with its class, that box, its extent and its sensor-frame
      reference point. */
  function CreateKittiDatapoint(
    agent: Agent, geometry: BoxGeometry, helpers: Helpers, rotationY: real,
    maxRenderDepth: real := DefaultMaxRenderDepth): (r: Outcome)
    ensures r == Rejected(UnknownObjectType) <==> ObjectTypeOf(agent.typeId).None?
    ensures r.Rejected? && r.reason.TooFewVisibleVertices? <==>
      ObjectTypeOf(agent.typeId).Some? && !PassesVisibilityGate(OcclusionStats(geometry.cameraBbox, maxRenderDepth, helpers))
    ensures r.Rejected? && r.reason.TooFewVisibleVertices? ==>
      r.reason.counts == OcclusionStats(geometry.cameraBbox, maxRenderDepth, helpers)
    ensures r.Rejected? && r.reason.AreaTooSmall? ==>
      r.reason.area == CalcBbox2dArea(helpers.calcProjected2dBbox(geometry.cameraBbox)) && r.reason.area < MinBboxAreaInPx
    ensures r.Accepted? <==>
      ObjectTypeOf(agent.typeId).Some?
      && PassesVisibilityGate(OcclusionStats(geometry.cameraBbox, maxRenderDepth, helpers))
      && CalcBbox2dArea(helpers.calcProjected2dBbox(geometry.cameraBbox)) >= MinBboxAreaInPx
    ensures r.Accepted? ==>
      r.datapoint == KittiDescriptor(
        ObjectTypeOf(agent.typeId).value.Name(), helpers.calcProjected2dBbox(geometry.cameraBbox),
        agent.boundingBox.extent, geometry.sensorRefpoint, rotationY)
      && r.cameraBbox == geometry.cameraBbox
  {
    match TransformsFromAgent(agent)
    case None => Rejected(UnknownObjectType)
    case Some(t) =>
      var counts := OcclusionStats(geometry.cameraBbox, maxRenderDepth, helpers);
      if counts.visible >= MinVisibleVerticesForRender > counts.outside then
        var bbox2d := helpers.calcProjected2dBbox(geometry.cameraBbox);
        var area := CalcBbox2dArea(bbox2d);
        if area < MinBboxAreaInPx then Rejected(AreaTooSmall(area))
        else Accepted(KittiDescriptor(t.objType.Name(), bbox2d, t.ext, geometry.sensorRefpoint, rotationY), geometry.cameraBbox)
      else
        Rejected(TooFewVisibleVertices(counts))
  }

  /** Concrete tags: a walker is a pedestrian, a vehicle a car, and a static
      prop has no class. */
  lemma ClassifyExamples()
    ensures ObjectTypeOf("walker.pedestrian.0001") == Some(Pedestrian)
    ensures ObjectTypeOf("walker.pedestrian.0001").value.Name() == "Pedestrian"
    ensures ObjectTypeOf("vehicle.tesla.model3") == Some(Car)
    ensures ObjectTypeOf("vehicle.tesla.model3").value.Name() == "Car"
    ensures ObjectTypeOf("static.prop.box") == None
  {
    assert OccursAt("walker.pedestrian.0001", "pedestrian", 7);
    assert !Contains("vehicle.tesla.model3", "pedestrian") by {
      NotContainsByFirstChar("vehicle.tesla.model3", "pedestrian");
    }
    assert OccursAt("vehicle.tesla.model3", "vehicle", 0);
    assert !Contains("static.prop.box", "pedestrian") by {
      NotContainsByFirstChar("static.prop.box", "pedestrian");
    }
    assert !Contains("static.prop.box", "vehicle") by {
      NotContainsByFirstChar("static.prop.box", "vehicle");
    }
  }

  /** A box entirely behind the camera or past the render depth is never
      labelled: a classified agent is refused at the visibility gate with no
      visible vertex and every vertex outside. */
  lemma {:induction false} OutOfRangeBoxRejected(
    agent: Agent, geometry: BoxGeometry, helpers: Helpers, rotationY: real, maxRenderDepth: real)
    requires forall i :: 0 <= i < |geometry.cameraBbox| ==>
      geometry.cameraBbox[i].depth <= 0.0 || geometry.cameraBbox[i].depth >= maxRenderDepth
    ensures !CreateKittiDatapoint(agent, geometry, helpers, rotationY, maxRenderDepth).Accepted?
    ensures ObjectTypeOf(agent.typeId).Some? ==>
      CreateKittiDatapoint(agent, geometry, helpers, rotationY, maxRenderDepth)
        == Rejected(TooFewVisibleVertices(VertexCounts(0, |geometry.cameraBbox|)))
  {
    StatsOutOfRange(geometry.cameraBbox, maxRenderDepth, helpers);
  }

  /** A classified agent whose 8 corners are all in range, on the canvas and
      unoccluded, and whose 2D box is at least the minimum area, is labelled. */
  lemma {:induction false} FullyVisibleBoxAccepted(
    agent: Agent, geometry: BoxGeometry, helpers: Helpers, rotationY: real, maxRenderDepth: real)
    requires ObjectTypeOf(agent.typeId).Some?
    requires |geometry.cameraBbox| == 8
    requires forall i :: 0 <= i < |geometry.cameraBbox| ==>
      InView(geometry.cameraBbox[i], maxRenderDepth, helpers)
      && !helpers.pointIsOccluded(geometry.cameraBbox[i].y, geometry.cameraBbox[i].x, geometry.cameraBbox[i].depth)
    requires CalcBbox2dArea(helpers.calcProjected2dBbox(geometry.cameraBbox)) >= MinBboxAreaInPx
    ensures CreateKittiDatapoint(agent, geometry, helpers, rotationY, maxRenderDepth).Accepted?
  {
    StatsAllVisible(geometry.cameraBbox, maxRenderDepth, helpers);
  }

  /** The decision does not depend on the order in which the corners are
      listed, as long as the 2D box helper gives the same box for both orders:
      a rejection is the same rejection, counts and area included, and with the
      same sensor reference point a label is the same label. */
  lemma {:induction false} DecisionIgnoresCornerOrder(
    agent: Agent, g1: BoxGeometry, g2: BoxGeometry, helpers: Helpers, rotationY: real, maxRenderDepth: real)
    requires multiset(g1.cameraBbox) == multiset(g2.cameraBbox)
    requires helpers.calcProjected2dBbox(g1.cameraBbox) == helpers.calcProjected2dBbox(g2.cameraBbox)
    ensures CreateKittiDatapoint(agent, g1, helpers, rotationY, maxRenderDepth).Accepted?
        == CreateKittiDatapoint(agent, g2, helpers, rotationY, maxRenderDepth).Accepted?
    ensures CreateKittiDatapoint(agent, g1, helpers, rotationY, maxRenderDepth).Rejected? ==>
      CreateKittiDatapoint(agent, g1, helpers, rotationY, maxRenderDepth)
        == CreateKittiDatapoint(agent, g2, helpers, rotationY, maxRenderDepth)
    ensures g1.sensorRefpoint == g2.sensorRefpoint && CreateKittiDatapoint(agent, g1, helpers, rotationY, maxRenderDepth).Accepted? ==>
      CreateKittiDatapoint(agent, g1, helpers, rotationY, maxRenderDepth).datapoint
        == CreateKittiDatapoint(agent, g2, helpers, rotationY, maxRenderDepth).datapoint
  {
    StatsPermutation(g1.cameraBbox, g2.cameraBbox, maxRenderDepth, helpers);
  }

  /** What `create_kitti_datapoint` returns as written: the image (not modelled)
      followed by either one more element, on the unclassified-type path, or two
      more, on every other path. */
  datatype PyReturn =
    | Pair(datapoint: Option<KittiDescriptor>)
    | Triple(datapoint: Option<KittiDescriptor>, cameraBbox: Option<seq<Projected>>)

  /** The return of `create_kitti_datapoint` as written, derived from the one
      outcome: a 2-tuple exactly when the type is unclassified. */
  function CreateKittiDatapointAsWritten(
    agent: Agent, geometry: BoxGeometry, helpers: Helpers, rotationY: real,
    maxRenderDepth: real := DefaultMaxRenderDepth): (r: PyReturn)
    ensures r.Pair? <==> ObjectTypeOf(agent.typeId).None?
    ensures r.datapoint.Some? <==> CreateKittiDatapoint(agent, geometry, helpers, rotationY, maxRenderDepth).Accepted?
  {
    match CreateKittiDatapoint(agent, geometry, helpers, rotationY, maxRenderDepth)
    case Rejected(UnknownObjectType) => Pair(None)
    case Rejected(_) => Triple(None, None)
    case Accepted(datapoint, cameraBbox) => Triple(Some(datapoint), Some(cameraBbox))
  }

  /** Two rejections, one by type and one by visibility, come back with
      different arities, so no single unpacking fits both. */
  lemma ReturnArityMismatch()
    ensures CreateKittiDatapointAsWritten(ArityProp, ArityGeometry, ArityHelpers, 0.0, DefaultMaxRenderDepth).Pair?
    ensures CreateKittiDatapointAsWritten(ArityCar, ArityGeometry, ArityHelpers, 0.0, DefaultMaxRenderDepth).Triple?
    ensures CreateKittiDatapointAsWritten(ArityCar, ArityGeometry, ArityHelpers, 0.0, DefaultMaxRenderDepth).datapoint.None?
  {
    ClassifyExamples();
    OutOfRangeBoxRejected(ArityCar, ArityGeometry, ArityHelpers, 0.0, DefaultMaxRenderDepth);
  }

  /** The inputs of `ReturnArityMismatch`: a static prop and a car, both with
      every corner behind the camera. */
  const ArityOrigin := Vec3(0.0, 0.0, 0.0)
  const ArityProp := Agent("static.prop.box", Transform(ArityOrigin, NoRotation), AgentBoundingBox(ArityOrigin, ArityOrigin))
  const ArityCar := Agent("vehicle.tesla.model3", Transform(ArityOrigin, NoRotation), AgentBoundingBox(ArityOrigin, ArityOrigin))
  const ArityGeometry := BoxGeometry(seq(8, _ => Projected(0.0, 0.0, -1.0)), Projected(0.0, 0.0, -1.0), seq(8, _ => ArityOrigin), ArityOrigin)
  const ArityHelpers := Helpers((_, _) => true, (_, _, _) => false, _ => Bbox2d(0.0, 0.0, 0.0, 0.0))
}
