/** The scene's mutable state and the frame loop: the key listeners, the
    per-frame update of the car and road, and the clear and draw commands
    one call of `render` issues. */
module Game {
  import opened Geometry
  import opened Controls
  import opened Motion
  import opened Graphics

  /** The depth at which the road is drawn. */
  const ROAD_Z: real := -2.0

  /** Passes of the lane-marking loop `for (i = -1.0; i <= 1.0; i += 0.2)`
      in exact arithmetic. */
  const LANE_PASSES: nat := 11

  /** Where the lane-marking loop's counter stands on pass `k`. */
  function LaneCounter(k: nat): real
  {
    -1.0 + 0.2 * k as real
  }

  /** The session state: car position, road offset and key flags, all
      changed in place by the listeners and by `render`. */
  class Scene {
    var carPosition: Vec3
    var roadOffset: real
    var keyState: KeyState

    /** The invariants every frame keeps: the key map has exactly its two
        entries, the car is within the sway limit at its fixed height and
        depth, and the road offset lies in [-2.0, 0.0]. */
    ghost predicate Valid()
      reads this
    {
      && keyState.Keys == CONTROL_KEYS
      && InSway(carPosition.x)
      && carPosition.y == CAR_Y && carPosition.z == CAR_Z
      && InRoadRange(roadOffset)
    }

    /** The state at startup: the car centred, the road unscrolled, no key
        held. */
    constructor ()
      ensures Valid()
      ensures carPosition == Vec3(0.0, CAR_Y, CAR_Z) && roadOffset == 0.0
      ensures keyState == INITIAL_KEYS
    {
      carPosition := Vec3(0.0, CAR_Y, CAR_Z);
      roadOffset := 0.0;
      keyState := INITIAL_KEYS;
    }

    /** The keydown listener. */
    method KeyDown(key: string)
      requires Valid()
      modifies this`keyState
      ensures Valid()
      ensures keyState == KeyEvent(old(keyState), key, true)
    {
      if key in keyState {
        keyState := keyState[key := true];
      }
    }

    /** The keyup listener. */
    method KeyUp(key: string)
      requires Valid()
      modifies this`keyState
      ensures Valid()
      ensures keyState == KeyEvent(old(keyState), key, false)
    {
      if key in keyState {
        keyState := keyState[key := false];
      }
    }

    /** The update at the start of each frame: sway the car by the held
        keys, left first, then scroll the road and wrap it. The key flags
        and the car's height and depth stay as they are. */
    method Step()
      requires Valid()
      modifies this`carPosition, this`roadOffset
      ensures Valid()
      ensures carPosition == old(carPosition).(x := NextX(old(carPosition.x), keyState[ARROW_LEFT], keyState[ARROW_RIGHT]))
      ensures roadOffset == NextOffset(old(roadOffset))
    {
      if keyState[ARROW_LEFT] {
        carPosition := carPosition.(x := JsMax(carPosition.x - STEP, -MAX_SWAY));
      }
      if keyState[ARROW_RIGHT] {
        carPosition := carPosition.(x := JsMin(carPosition.x + STEP, MAX_SWAY));
      }
      roadOffset := roadOffset - SCROLL_STEP;
      if roadOffset < -ROAD_PERIOD {
        roadOffset := roadOffset + ROAD_PERIOD;
      }
    }
  }

  // The frame as the source issues it.

  /** The road's draw: gray, its own buffers, and whatever model-view
      matrix was uploaded last. */
  function RoadDraw(uploaded: Matrix): Command
  {
    Draw(Some(Vertices(RoadShape)), Some(Indices(RoadShape)), GRAY, uploaded, DRAW_COUNT)
  }

  /** One draw of the car's index buffer, red, at the car's position, with
      whatever vertex buffer the attribute reads. */
  function CarRedraw(attrib: Option<Buffer>, car: Vec3): Command
  {
    Draw(attrib, Some(Indices(CarShape)), RED, Translate(car), DRAW_COUNT)
  }

  const ROAD_VERTICES: Option<Buffer> := Some(Vertices(RoadShape))

  /** The commands one call of `render` issues, given the model-view matrix
      uploaded before it and the car's position after the update. */
  function FrameAsWritten(uploaded: Matrix, car: Vec3): (f: seq<Command>)
    ensures |f| == LANE_PASSES + 3 && f[0] == Clear(BLACK)
    ensures f[1] == RoadDraw(uploaded)
    ensures forall k :: 2 <= k < |f| ==> f[k] == CarRedraw(ROAD_VERTICES, car)
  {
    [Clear(BLACK), RoadDraw(uploaded)] + seq(LANE_PASSES, _ => CarRedraw(ROAD_VERTICES, car)) + [CarRedraw(ROAD_VERTICES, car)]
  }

  /** `drawRoad`: sets the color, points the attribute at the road's vertex
      buffer and draws with the road's indices. It uploads no matrix. */
  method DrawRoad(gl: Gl)
    modifies gl
    ensures gl.commands == old(gl.commands) + [RoadDraw(old(gl.modelView))]
    ensures gl.arrayBuffer == gl.attribBuffer == Some(Vertices(RoadShape))
    ensures gl.elementBuffer == Some(Indices(RoadShape))
    ensures gl.color == GRAY && gl.modelView == old(gl.modelView)
  {
    gl.SetColor(GRAY);
    gl.BindArrayBuffer(Vertices(RoadShape));
    gl.VertexAttribPointer();
    gl.BindElementBuffer(Indices(RoadShape));
    gl.DrawElements(DRAW_COUNT);
  }

  /** `drawLaneMarkings`: for each counter value from -1.0 in steps of 0.2
      up to 1.0, uploads the car's translation, sets red and draws the
      car's index buffer. No lane-marking buffer is used. */
  method DrawLaneMarkings(car: Vec3, gl: Gl)
    modifies gl
    ensures gl.commands == old(gl.commands) + seq(LANE_PASSES, _ => CarRedraw(old(gl.attribBuffer), car))
    ensures gl.modelView == Translate(car)
    ensures gl.color == RED && gl.elementBuffer == Some(Indices(CarShape))
    ensures gl.attribBuffer == old(gl.attribBuffer) && gl.arrayBuffer == old(gl.arrayBuffer)
  {
    gl.SetColor(WHITE);
    var i := -1.0;
    ghost var passes: nat := 0;
    while i <= 1.0
      invariant passes <= LANE_PASSES && i == LaneCounter(passes)
      invariant gl.commands == old(gl.commands) + seq(passes, _ => CarRedraw(old(gl.attribBuffer), car))
      invariant passes > 0 ==> gl.modelView == Translate(car) && gl.color == RED && gl.elementBuffer == Some(Indices(CarShape))
      invariant passes == 0 ==> gl.modelView == old(gl.modelView) && gl.color == WHITE && gl.elementBuffer == old(gl.elementBuffer)
      invariant gl.attribBuffer == old(gl.attribBuffer) && gl.arrayBuffer == old(gl.arrayBuffer)
      decreases LANE_PASSES - passes
    {
      var modelViewMatrix := Translate(car);
      gl.SetModelView(modelViewMatrix);
      gl.SetColor(RED);
      gl.BindElementBuffer(Indices(CarShape));
      gl.DrawElements(DRAW_COUNT);
      ghost var pass := CarRedraw(old(gl.attribBuffer), car);
      assert seq(passes + 1, _ => pass) == seq(passes, _ => pass) + [pass];
      i := i + 0.2;
      passes := passes + 1;
    }
    assert passes == LANE_PASSES;
  }

  /** `render`: clear, update the scene, then draw the road, the lane
      markings and the car. The road's translation is computed and never
      uploaded, so the road is drawn with the matrix uploaded before this
      frame; the frame ends with the car's translation uploaded. */
  method Render(scene: Scene, gl: Gl)
    requires scene.Valid()
    modifies scene`carPosition, scene`roadOffset, gl
    ensures scene.Valid()
    ensures scene.carPosition == old(scene.carPosition).(x := NextX(old(scene.carPosition.x), scene.keyState[ARROW_LEFT], scene.keyState[ARROW_RIGHT]))
    ensures scene.roadOffset == NextOffset(old(scene.roadOffset))
    ensures gl.commands == old(gl.commands) + FrameAsWritten(old(gl.modelView), scene.carPosition)
    ensures gl.modelView == Translate(scene.carPosition)
    ensures gl.attribBuffer == gl.arrayBuffer == Some(Vertices(RoadShape))
    ensures gl.color == RED && gl.elementBuffer == Some(Indices(CarShape))
  {
    gl.ClearScreen(BLACK);
    scene.Step();
    var modelViewMatrix := Translate(Vec3(0.0, RoadTranslation(scene.roadOffset), ROAD_Z));
    DrawRoad(gl);
    DrawLaneMarkings(scene.carPosition, gl);
    modelViewMatrix := Translate(scene.carPosition);
    gl.SetModelView(modelViewMatrix);
    gl.SetColor(RED);
    gl.BindElementBuffer(Indices(CarShape));
    gl.DrawElements(DRAW_COUNT);
  }

  /** The order of one frame as the source issues it: the clear, the road,
      the lane-marking loop's eleven passes, the car last; every draw asks
      for as many indices as its index buffer holds. */
  lemma FrameOrder(uploaded: Matrix, car: Vec3)
    ensures var f := FrameAsWritten(uploaded, car);
      && |f| == LANE_PASSES + 3
      && f[0] == Clear(BLACK)
      && f[1].Draw? && f[1].indices == Some(Indices(RoadShape)) && f[1].color == GRAY
      && f[|f| - 1] == Draw(ROAD_VERTICES, Some(Indices(CarShape)), RED, Translate(car), DRAW_COUNT)
      && forall k :: 1 <= k < |f| ==>
           f[k].Draw? && f[k].indices.Some? && f[k].count == |ShapeOf(f[k].indices.value.shape).indices|
  {
    Catalog();
  }

  /** The lane-marking loop redraws the car: every pass repeats the frame's
      final car draw, and no draw of the frame touches a lane-marking
      buffer. */
  lemma LaneLoopRedrawsCar(uploaded: Matrix, car: Vec3)
    ensures var f := FrameAsWritten(uploaded, car);
      && (forall k :: 2 <= k < |f| ==> f[k] == f[|f| - 1])
      && (forall k :: 0 <= k < |f| && f[k].Draw? ==>
            f[k].vertices != Some(Vertices(LaneShape)) && f[k].indices != Some(Indices(LaneShape)))
  {
  }

  /** The road is drawn with the matrix uploaded before the frame, whatever
      the road offset: in the first frame that is the unset (zero) matrix,
      never the translation `(0, roadOffset % 2.0, -2.0)`; in every later
      frame it is the car's translation from the frame before. */
  lemma RoadDrawnWithStaleMatrix(offset: real, previousCar: Vec3, car: Vec3)
    ensures FrameAsWritten(Unset, car)[1].modelView != Translate(Vec3(0.0, RoadTranslation(offset), ROAD_Z))
    ensures FrameAsWritten(Translate(previousCar), car)[1].modelView == Translate(previousCar)
  {
  }

  /** Every draw of the frame reads the road's vertex buffer, the car's
      included: the attribute pointer is only ever set while the road's
      vertex buffer is bound. */
  lemma EveryDrawReadsRoadVertices(uploaded: Matrix, car: Vec3)
    ensures var f := FrameAsWritten(uploaded, car);
      && (forall k :: 0 <= k < |f| && f[k].Draw? ==> f[k].vertices == ROAD_VERTICES)
      && f[|f| - 1].vertices != Some(Vertices(CarShape))
  {
  }

  // The frame the source evidently intends.

  /** A draw of one shape with its own two buffers, at a translation. */
  function ShapeDraw(id: ShapeId, color: Color, at: Vec3): Command
  {
    Draw(Some(Vertices(id)), Some(Indices(id)), color, Translate(at), DRAW_COUNT)
  }

  /** Where pass `k` of the lane-marking loop draws its marking: at the
      loop counter along the road, at the road's depth. */
  function LanePosition(k: nat): Vec3
  {
    Vec3(0.0, LaneCounter(k), ROAD_Z)
  }

  /** The intended frame: the road at its scroll translation, a lane marking
      at each loop position, then the car, each shape with its own
      geometry. */
  function Frame(offset: real, car: Vec3): (f: seq<Command>)
    ensures |f| == LANE_PASSES + 3 && f[0] == Clear(BLACK)
    ensures f[1] == ShapeDraw(RoadShape, GRAY, Vec3(0.0, RoadTranslation(offset), ROAD_Z))
    ensures forall k :: 0 <= k < LANE_PASSES ==> f[k + 2] == ShapeDraw(LaneShape, WHITE, LanePosition(k))
    ensures f[|f| - 1] == ShapeDraw(CarShape, RED, car)
  {
    [Clear(BLACK), ShapeDraw(RoadShape, GRAY, Vec3(0.0, RoadTranslation(offset), ROAD_Z))]
      + seq(LANE_PASSES, (k: nat) => ShapeDraw(LaneShape, WHITE, LanePosition(k)))
      + [ShapeDraw(CarShape, RED, car)]
  }

  /** A draw whose vertex and index buffers belong to the same shape and
      whose count is that shape's index count. */
  ghost predicate Matched(c: Command)
  {
    c.Draw? && c.vertices.Some? && c.indices.Some?
    && c.vertices.value == Vertices(c.indices.value.shape)
    && c.indices.value.Indices?
    && c.count == |ShapeOf(c.indices.value.shape).indices|
  }

  /** In the intended frame each draw uses one shape's own geometry; the road
      comes first at its scroll translation (within (-2.0, 0.0] on every
      offset the update produces), the eleven lane markings follow at
      -1.0, -0.8, ..., 1.0 along the road, and the car is drawn last at its
      position. */
  lemma FrameDrawsEachShape(offset: real, car: Vec3)
    requires InRoadRange(offset)
    ensures var f := Frame(offset, car);
      && |f| == LANE_PASSES + 3
      && f[0] == Clear(BLACK)
      && (forall k :: 1 <= k < |f| ==> Matched(f[k]))
      && f[1].indices == Some(Indices(RoadShape)) && f[1].modelView.Translate?
      && -ROAD_PERIOD < f[1].modelView.vector.y <= 0.0
      && (forall k :: 0 <= k < LANE_PASSES ==>
            f[k + 2].indices == Some(Indices(LaneShape)) && f[k + 2].modelView == Translate(LanePosition(k)))
      && LanePosition(0).y == -1.0 && LanePosition(LANE_PASSES - 1).y == 1.0
      && f[|f| - 1] == ShapeDraw(CarShape, RED, car)
  {
    Catalog();
    RoadTranslationInRange(offset);
  }
}
