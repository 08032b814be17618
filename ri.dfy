/** The RenderMan interface as the terrain program sees it: its value types
    (RtPoint and RtColor, three floats each) and the calls it makes, recorded
    in order as a trace. The renderer behind the calls is not modelled. */
module Ri {

  /** RtPoint and RtColor: three components; a point is (x, y, z), a colour (r, g, b). */
  datatype Vec3 = Vec3(x: real, y: real, z: real)

  const Zero: Vec3 := Vec3(0.0, 0.0, 0.0)

  function Neg(v: Vec3): (r: Vec3)
    ensures Add(v, r) == Zero
  {
    Vec3(-v.x, -v.y, -v.z)
  }

  function Add(a: Vec3, b: Vec3): Vec3
  {
    Vec3(a.x + b.x, a.y + b.y, a.z + b.z)
  }

  function Sub(a: Vec3, b: Vec3): (r: Vec3)
    ensures Add(r, b) == a
  {
    Vec3(a.x - b.x, a.y - b.y, a.z - b.z)
  }

  const XAxis: Vec3 := Vec3(1.0, 0.0, 0.0)
  const YAxis: Vec3 := Vec3(0.0, 1.0, 0.0)
  const ZAxis: Vec3 := Vec3(0.0, 0.0, 1.0)

  /** A token/value pair of a parameter list. */
  datatype Param = IntParam(token: string, ival: int) | StringParam(token: string, sval: string)

  /** What RiPointsPolygons is given to draw: the declared polygon count, the
      "P" point buffer and the "Cs" colour buffer, as their contents. */
  datatype Geometry = Geometry(npolys: int, points: seq<Vec3>, colours: seq<Vec3>)

  /** One call into the renderer, with the arguments that the program passes. */
  datatype Command =
    | Begin
    | End
    | Option(name: string, token: string, value: int)
    | Sides(n: int)
    | FrameBegin(frame: int)
    | FrameEnd
    | Display(path: string, driver: string, mode: string)
    | Format(xres: int, yres: int, aspect: real)
    | Projection(name: string)
    | Rotate(angle: real, axis: Vec3)
    | Translate(delta: Vec3)
    | Attribute(name: string, params: seq<Param>)
    | LightSource(shader: string, from: Vec3)
    | WorldBegin
    | WorldEnd
    | Surface(shader: string)
    | PointsPolygons(geometry: Geometry)

  /** The renderer session: everything the program has asked of it so far. */
  class Renderer {
    var trace: seq<Command>

    constructor ()
      ensures trace == []
    {
      trace := [];
    }

    /** Issue one call. */
    method Emit(c: Command)
      modifies this
      ensures trace == old(trace) + [c]
    {
      trace := trace + [c];
    }
  }
}
