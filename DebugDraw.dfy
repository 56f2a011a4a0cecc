/**
  The physics debug-line renderer of the bouncing-lights demo
  (BouncingLights::DebugDraw).

  The physics library calls `DrawLine` while it walks the world; each call
  appends two vertices to an append-only buffer that `Begin` clears and `Draw`
  uploads and draws. Graphics-driver and render-manager calls are appended to
  the `calls` trace; the results they return (a material id, a uniform
  location, buffer names) come in as parameters.
*/
module Debug {
  import opened Wrappers
  import opened Matrix

  /** btIDebugDraw::DBG_DrawAabb, the physics library's "draw bounding boxes" mode bit. */
  const DBG_DrawAabb: int := 2

  /** One end of a line: position and colour. */
  datatype Vertex = Vertex(pos: Vec3, col: Vec3)

  datatype Capability = Blend | CullFace | DepthTest

  /** The two vertex attributes the line shader reads. */
  datatype Attribute = PositionAttrib | AmbientAttrib

  /** Calls made into the graphics driver, the render manager and the log. */
  datatype Call =
    | Disable(cap: Capability)
    | Enable(cap: Capability)
    | BindMaterial(mat: nat)
    | BindMatrix(loc: nat, m: Mat)
    | BindVertexArray(vao: nat)
    | BindBuffer(vbo: nat)
    | BufferData(vertices: seq<Vertex>)
    | DrawLines(first: nat, count: nat)
    | DelMaterial(mat: nat)
    | AddMaterialFromFile(name: string, vertexShader: string, fragmentShader: string)
    | GetLoc(mat: nat, uniform: string)
    | GenBuffer(vbo: nat)
    | GenVertexArray(vao: nat)
    | VertexAttribPointer(attr: Attribute)
    | EnableVertexAttrib(attr: Attribute)
    | Warning(message: string)

  /** The driver calls of a successful build after the material exists. */
  function BufferSetup(vbo: nat, vao: nat): seq<Call> {
    [ GenBuffer(vbo), GenVertexArray(vao), BindBuffer(vbo), BindVertexArray(vao),
      VertexAttribPointer(PositionAttrib), VertexAttribPointer(AmbientAttrib),
      EnableVertexAttrib(PositionAttrib), EnableVertexAttrib(AmbientAttrib),
      BufferData([]) ]
  }

  class DebugDraw {
    var mat: nat
    var lines: seq<Vertex>
    var vbo: nat
    var vao: nat
    var vpLoc: nat
    var debugMode: int
    /** The render manager `Build` was given; None is the null pointer. */
    var rm: Option<nat>
    /** Calls made so far, oldest first. */
    var calls: seq<Call>

    constructor ()
      ensures lines == [] && debugMode == DBG_DrawAabb && rm == None && calls == []
    {
      lines := [];
      debugMode := DBG_DrawAabb;
      rm := None;
      calls := [];
    }

    /** Empties the line buffer; called before the physics world draws. */
    method Begin()
      modifies this`lines
      ensures lines == []
    {
      lines := [];
    }

    /** A single-colour line: appends the start vertex, then the end vertex. */
    method DrawLine(from: Vec3, to: Vec3, color: Vec3)
      modifies this`lines
      ensures lines == old(lines) + [Vertex(from, color), Vertex(to, color)]
    {
      lines := lines + [Vertex(from, color)];
      lines := lines + [Vertex(to, color)];
    }

    /** A two-colour line: each end keeps its own colour. */
    method DrawGradientLine(from: Vec3, to: Vec3, fromColor: Vec3, toColor: Vec3)
      modifies this`lines
      ensures lines == old(lines) + [Vertex(from, fromColor), Vertex(to, toColor)]
    {
      lines := lines + [Vertex(from, fromColor)];
      lines := lines + [Vertex(to, toColor)];
    }

    /** Forwards a physics warning to the log; the buffer and mode are untouched. */
    method ReportErrorWarning(message: string)
      modifies this`calls
      ensures calls == old(calls) + [Warning("bullet: " + message)]
      ensures lines == old(lines) && debugMode == old(debugMode)
    {
      calls := calls + [Warning("bullet: " + message)];
    }

    /** Text is not drawn. */
    method Draw3dText(location: Vec3, text: string)
      ensures unchanged(this)
    {
    }

    /** Contact points are not drawn. */
    method DrawContactPoint(pointOnB: Vec3, normalOnB: Vec3, distance: real, lifeTime: int, color: Vec3)
      ensures unchanged(this)
    {
    }

    method SetDebugMode(mode: int)
      modifies this`debugMode
      ensures debugMode == mode
    {
      debugMode := mode;
    }

    method GetDebugMode() returns (mode: int)
      ensures mode == debugMode
    {
      mode := debugMode;
    }

    /** Records the render manager, then creates the line material. When the
        material cannot be created (`material` is None) it reports failure and
        creates no buffers; otherwise it looks up the "vp" uniform
        (`location`) and creates the vertex buffer and array (`newVbo`,
        `newVao`) the driver hands out. */
    method Build(renderman: nat, material: Option<nat>, location: nat, newVbo: nat, newVao: nat)
      returns (ok: bool)
      modifies this
      ensures rm == Some(renderman)
      ensures ok <==> material.Some?
      ensures lines == old(lines) && debugMode == old(debugMode)
      ensures var request := AddMaterialFromFile("Bullet Line Renderer", "bullet-debug.vert", "bullet-debug.frag");
        if ok then
          && mat == material.value && vpLoc == location && vbo == newVbo && vao == newVao
          && calls == old(calls) + [request, GetLoc(mat, "vp")] + BufferSetup(newVbo, newVao)
        else
          && calls == old(calls) + [request]
          && mat == old(mat) && vpLoc == old(vpLoc) && vbo == old(vbo) && vao == old(vao)
    {
      rm := Some(renderman);
      calls := calls + [AddMaterialFromFile("Bullet Line Renderer", "bullet-debug.vert", "bullet-debug.frag")];
      if material.None? {
        return false;
      }
      mat := material.value;
      vpLoc := location;
      calls := calls + [GetLoc(mat, "vp")];
      vbo, vao := newVbo, newVao;
      calls := calls + BufferSetup(vbo, vao);
      ok := true;
    }

    /** Uploads the buffer and draws it as lines: exactly |lines| vertices. */
    method Draw(vp: Mat)
      modifies this`calls
      ensures lines == old(lines)
      ensures calls == old(calls) + [
        Disable(Blend), Disable(CullFace), Enable(DepthTest),
        BindMaterial(mat), BindMatrix(vpLoc, vp),
        BindVertexArray(vao), BindBuffer(vbo),
        BufferData(lines), DrawLines(0, |lines|)]
    {
      calls := calls + [Disable(Blend), Disable(CullFace), Enable(DepthTest)];
      calls := calls + [BindMaterial(mat), BindMatrix(vpLoc, vp)];
      calls := calls + [BindVertexArray(vao), BindBuffer(vbo)];
      calls := calls + [BufferData(lines), DrawLines(0, |lines|)];
    }

    /** Releases the line material. */
    method Free()
      modifies this`calls
      ensures calls == old(calls) + [DelMaterial(mat)]
    {
      calls := calls + [DelMaterial(mat)];
    }
  }

  // -----------------------------------------------------------------------
  // Sequences of callbacks, as the physics library issues them.

  /** One callback of the debug-drawer interface. */
  datatype Callback =
    | Line(from: Vec3, to: Vec3, color: Vec3)
    | GradientLine(from: Vec3, to: Vec3, fromColor: Vec3, toColor: Vec3)
    | Text(location: Vec3, text: string)
    | ContactPoint(pointOnB: Vec3, normalOnB: Vec3, distance: real, lifeTime: int, color: Vec3)
    | ReportWarning(message: string)
    | SetMode(mode: int)

  /** The line buffer after a sequence of callbacks, as the methods above change it. */
  function LinesAfter(lines: seq<Vertex>, cbs: seq<Callback>): seq<Vertex>
    decreases |cbs|
  {
    if cbs == [] then lines
    else
      var next := match cbs[0]
        case Line(from, to, color) => lines + [Vertex(from, color), Vertex(to, color)]
        case GradientLine(from, to, fc, tc) => lines + [Vertex(from, fc), Vertex(to, tc)]
        case _ => lines;
      LinesAfter(next, cbs[1..])
  }

  /** The debug mode after a sequence of callbacks. */
  function ModeAfter(mode: int, cbs: seq<Callback>): int
    decreases |cbs|
  {
    if cbs == [] then mode
    else ModeAfter(if cbs[0].SetMode? then cbs[0].mode else mode, cbs[1..])
  }

  /** How many line callbacks (of either kind) a sequence holds. */
  function LineCalls(cbs: seq<Callback>): nat
    decreases |cbs|
  {
    if cbs == [] then 0
    else (if cbs[0].Line? || cbs[0].GradientLine? then 1 else 0) + LineCalls(cbs[1..])
  }

  /** Callbacks only append: what was in the buffer stays, in place, and the
      buffer grows by two vertices per line callback. */
  lemma {:induction false} LinesAfterAppends(lines: seq<Vertex>, cbs: seq<Callback>)
    ensures |LinesAfter(lines, cbs)| == |lines| + 2 * LineCalls(cbs)
    ensures LinesAfter(lines, cbs)[..|lines|] == lines
    decreases |cbs|
  {
    if cbs != [] {
      var next := match cbs[0]
        case Line(from, to, color) => lines + [Vertex(from, color), Vertex(to, color)]
        case GradientLine(from, to, fc, tc) => lines + [Vertex(from, fc), Vertex(to, tc)]
        case _ => lines;
      LinesAfterAppends(next, cbs[1..]);
      assert next[..|lines|] == lines;
    }
  }

  /** Starting from an empty buffer (after Begin), the buffer length is even:
      exactly twice the number of line callbacks. */
  lemma LinesFromBeginAreEven(cbs: seq<Callback>)
    ensures |LinesAfter([], cbs)| == 2 * LineCalls(cbs)
    ensures |LinesAfter([], cbs)| % 2 == 0
  {
    LinesAfterAppends([], cbs);
  }

  /** The mode read back is the last one set, or the starting mode if none was. */
  lemma {:induction false} ModeIsLastSet(mode: int, cbs: seq<Callback>, k: nat)
    requires k < |cbs| && cbs[k].SetMode?
    requires forall j :: k < j < |cbs| ==> !cbs[j].SetMode?
    ensures ModeAfter(mode, cbs) == cbs[k].mode
    decreases |cbs|
  {
    if k == 0 {
      NoSetModeKeepsMode(cbs[0].mode, cbs[1..]);
    } else {
      ModeIsLastSet(if cbs[0].SetMode? then cbs[0].mode else mode, cbs[1..], k - 1);
    }
  }

  lemma {:induction false} NoSetModeKeepsMode(mode: int, cbs: seq<Callback>)
    requires forall j :: 0 <= j < |cbs| ==> !cbs[j].SetMode?
    ensures ModeAfter(mode, cbs) == mode
    decreases |cbs|
  {
    if cbs != [] {
      NoSetModeKeepsMode(mode, cbs[1..]);
    }
  }

  /** Setting the mode and reading it back returns what was set. */
  method SetThenGetMode(d: DebugDraw, mode: int) returns (read: int)
    modifies d
    ensures read == mode
    ensures d.lines == old(d.lines)
  {
    d.SetDebugMode(mode);
    read := d.GetDebugMode();
  }

  /** The physics library issuing one callback: it reaches the matching
      method, which changes the buffer and the mode as the replay says. */
  method Deliver(d: DebugDraw, cb: Callback)
    modifies d
    ensures d.lines == LinesAfter(old(d.lines), [cb])
    ensures d.debugMode == ModeAfter(old(d.debugMode), [cb])
  {
    match cb
    case Line(from, to, color) => d.DrawLine(from, to, color);
    case GradientLine(from, to, fc, tc) => d.DrawGradientLine(from, to, fc, tc);
    case Text(location, text) => d.Draw3dText(location, text);
    case ContactPoint(p, n, dist, life, color) => d.DrawContactPoint(p, n, dist, life, color);
    case ReportWarning(message) => d.ReportErrorWarning(message);
    case SetMode(mode) => d.SetDebugMode(mode);
  }

  /** The callbacks are delivered one after the other: the drawer ends with
      the buffer and mode the replay functions compute. */
  method DeliverAll(d: DebugDraw, cbs: seq<Callback>)
    modifies d
    ensures d.lines == LinesAfter(old(d.lines), cbs)
    ensures d.debugMode == ModeAfter(old(d.debugMode), cbs)
  {
    var i := 0;
    while i < |cbs|
      invariant 0 <= i <= |cbs|
      invariant LinesAfter(d.lines, cbs[i..]) == LinesAfter(old(d.lines), cbs)
      invariant ModeAfter(d.debugMode, cbs[i..]) == ModeAfter(old(d.debugMode), cbs)
    {
      assert cbs[i..][0] == cbs[i] && cbs[i..][1..] == cbs[i + 1..];
      Deliver(d, cbs[i]);
      i := i + 1;
    }
  }
}
