/** The stroke-capture state machine: the module-level `isDrawing` flag and
    `vertices` buffer of the game script, and the pointer handlers that move
    between "idle" and "drawing".  Canvas drawing, coordinate offsets and pen
    pressure are left to the caller; each handler receives the point it would
    record in canvas coordinates. */
module Game {
  import opened Points
  import opened Scoring

  class Session {
    var isDrawing: bool
    var vertices: seq<Point>

    /** The state when the script loads: idle, with an empty buffer. */
    constructor ()
      ensures !isDrawing && vertices == []
    {
      isDrawing := false;
      vertices := [];
    }

    /** `onMouseDown`: starts a stroke with an empty buffer, unless one is
        already in progress, in which case nothing changes. */
    method OnMouseDown()
      modifies this
      ensures old(isDrawing) ==> isDrawing && vertices == old(vertices)
      ensures !old(isDrawing) ==> isDrawing && vertices == []
    {
      if isDrawing {
        return;
      }
      isDrawing := true;
      vertices := [];
    }

    /** `drawVertex`: appends one point to the buffer. */
    method DrawVertex(x: real, y: real)
      modifies this`vertices
      ensures vertices == old(vertices) + [Point(x, y)]
    {
      vertices := vertices + [Point(x, y)];
    }

    /** `onMouseMove`: records the pointer position while a stroke is in
        progress and ignores it otherwise. */
    method OnMouseMove(mouseX: real, mouseY: real)
      modifies this
      ensures isDrawing == old(isDrawing)
      ensures old(isDrawing) ==> vertices == old(vertices) + [Point(mouseX, mouseY)]
      ensures !old(isDrawing) ==> vertices == old(vertices)
    {
      if isDrawing {
        DrawVertex(mouseX, mouseY);
      }
    }

    /** `onTouchMove`: like `OnMouseMove` for the first touch of the event;
        `None` stands for an event without a touch list. */
    method OnTouchMove(touches: Option<seq<Point>>)
      modifies this
      ensures isDrawing == old(isDrawing)
      ensures old(isDrawing) && touches.Some? && |touches.value| > 0 ==>
        vertices == old(vertices) + [touches.value[0]]
      ensures !(old(isDrawing) && touches.Some? && |touches.value| > 0) ==> vertices == old(vertices)
    {
      if isDrawing && touches.Some? && |touches.value| > 0 {
        var touch := touches.value[0];
        DrawVertex(touch.x, touch.y);
      }
    }

    /** `onMouseUp`: ends a stroke in progress and scores it when it holds
        more than five points; the buffer is kept.  Outside a stroke nothing
        changes and nothing is scored, and a stroke that cannot be scored
        yields `None`. */
    method OnMouseUp(h: Hypot) returns (result: Option<Evaluation>)
      modifies this
      ensures !isDrawing && vertices == old(vertices)
      ensures result.Some? <==> old(isDrawing) && |vertices| > 5 && Scorable(h, vertices)
      ensures result.Some? ==> result.value == Score(h, vertices) && ScoreInRange(result.value)
    {
      if !isDrawing {
        return None;
      }
      isDrawing := false;
      if |vertices| > 5 {
        result := Evaluate(h, vertices);
        return;
      }
      return None;
    }
  }
}
