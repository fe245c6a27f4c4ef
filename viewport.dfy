/**
 * The client's view of the world (public/js/game/ViewPort.js): the world
 * point at the centre of the 800 by 600 canvas, and the translations between
 * world coordinates and canvas coordinates that it defines.
 */
module ViewPorts {
  import opened Wrappers

  /** Constants.CANVAS_WIDTH and Constants.CANVAS_HEIGHT */
  const CANVAS_WIDTH: real := 800.0
  const CANVAS_HEIGHT: real := 600.0

  class ViewPort {
    var center: seq<real>

    ghost predicate Valid()
      reads this
    {
      |center| == 2
    }

    /** A new view port (ViewPort.create passes no centre): centred on `c`, or on the origin. */
    constructor (c: Option<seq<real>>)
      requires c.Some? ==> |c.value| == 2
      ensures Valid()
      ensures center == VectorOr(c, [0.0, 0.0])
    {
      center := VectorOr(c, [0.0, 0.0]);
    }

    /** Moves the view to a new centre; nothing else is kept. */
    method SetCenter(c: seq<real>)
      requires |c| == 2
      modifies this
      ensures Valid() && center == c
    {
      center := c;
    }

    /**
     * The canvas position of a world point: a translation that takes the
     * centre to the middle of the canvas. Only the first two coordinates of
     * the point are used.
     */
    function ToCanvasCoords(coords: seq<real>): (r: seq<real>)
      reads this
      requires Valid() && |coords| >= 2
      ensures |r| == 2
      ensures r[0] - coords[0] == CANVAS_WIDTH / 2.0 - center[0]
      ensures r[1] - coords[1] == CANVAS_HEIGHT / 2.0 - center[1]
      ensures coords[..2] == center ==> r == [CANVAS_WIDTH / 2.0, CANVAS_HEIGHT / 2.0]
    {
      var translateX := center[0] - CANVAS_WIDTH / 2.0;
      var translateY := center[1] - CANVAS_HEIGHT / 2.0;
      [coords[0] - translateX, coords[1] - translateY]
    }

    /**
     * The world position of a canvas point: the opposite translation, taking
     * the middle of the canvas to the centre.
     */
    function ToAbsoluteCoords(coords: seq<real>): (r: seq<real>)
      reads this
      requires Valid() && |coords| >= 2
      ensures |r| == 2
      ensures r[0] - coords[0] == center[0] - CANVAS_WIDTH / 2.0
      ensures r[1] - coords[1] == center[1] - CANVAS_HEIGHT / 2.0
      ensures coords[..2] == [CANVAS_WIDTH / 2.0, CANVAS_HEIGHT / 2.0] ==> r == center
    {
      var translateX := center[0] - CANVAS_WIDTH / 2.0;
      var translateY := center[1] - CANVAS_HEIGHT / 2.0;
      [coords[0] + translateX, coords[1] + translateY]
    }
  }

  /** The two translations undo each other, in both orders. */
  lemma CoordsRoundTrip(v: ViewPort, p: seq<real>)
    requires v.Valid() && |p| == 2
    ensures v.ToAbsoluteCoords(v.ToCanvasCoords(p)) == p
    ensures v.ToCanvasCoords(v.ToAbsoluteCoords(p)) == p
  {
  }

  /** Both translations keep the difference between two points. */
  lemma CoordsKeepDifferences(v: ViewPort, p: seq<real>, q: seq<real>)
    requires v.Valid() && |p| >= 2 && |q| >= 2
    ensures forall i :: 0 <= i < 2 ==>
      v.ToCanvasCoords(p)[i] - v.ToCanvasCoords(q)[i] == p[i] - q[i]
    ensures forall i :: 0 <= i < 2 ==>
      v.ToAbsoluteCoords(p)[i] - v.ToAbsoluteCoords(q)[i] == p[i] - q[i]
  {
  }
}
