/** The unit-cell wireframe of `plot_atoms` (abtem/plot.py): the constant
    table `cube` of the twelve edges of the unit cube, in fractional
    coordinates, and the loop that projects each edge through the cell and
    draws it as one line segment in the chosen plane. */
module CellOutline {
  import opened Wrappers
  import Plane

  /** A corner of the unit cube, in fractional coordinates along the three
      cell vectors. */
  datatype Corner = Corner(a: int, b: int, c: int)

  /** One row of the `cube` table: the two corners an edge joins. */
  datatype Edge = Edge(from: Corner, to: Corner)

  /** The table `cube`, row for row. */
  const Cube: seq<Edge> := [
    Edge(Corner(0, 0, 0), Corner(0, 0, 1)),
    Edge(Corner(0, 0, 0), Corner(0, 1, 0)),
    Edge(Corner(0, 0, 0), Corner(1, 0, 0)),
    Edge(Corner(0, 0, 1), Corner(0, 1, 1)),
    Edge(Corner(0, 0, 1), Corner(1, 0, 1)),
    Edge(Corner(0, 1, 0), Corner(1, 1, 0)),
    Edge(Corner(0, 1, 0), Corner(0, 1, 1)),
    Edge(Corner(1, 0, 0), Corner(1, 1, 0)),
    Edge(Corner(1, 0, 0), Corner(1, 0, 1)),
    Edge(Corner(0, 1, 1), Corner(1, 1, 1)),
    Edge(Corner(1, 0, 1), Corner(1, 1, 1)),
    Edge(Corner(1, 1, 0), Corner(1, 1, 1))
  ]

  predicate IsBit(n: int) {
    n == 0 || n == 1
  }

  /** A vertex of the unit cube: every coordinate 0 or 1. */
  predicate IsCubeCorner(p: Corner) {
    IsBit(p.a) && IsBit(p.b) && IsBit(p.c)
  }

  /** The number of coordinates in which two corners differ. */
  function Differing(p: Corner, q: Corner): (n: nat)
    ensures n <= 3
    ensures n == 0 <==> p == q
  {
    (if p.a != q.a then 1 else 0) + (if p.b != q.b then 1 else 0) + (if p.c != q.c then 1 else 0)
  }

  /** An edge joins `p` and `q`, in either direction. */
  predicate Joins(e: Edge, p: Corner, q: Corner) {
    (e.from == p && e.to == q) || (e.from == q && e.to == p)
  }

  /** An edge of the unit cube going from 0 to 1 in the one coordinate in
      which its corners differ, as every row of `cube` does. */
  predicate UnitStep(e: Edge) {
    && IsCubeCorner(e.from) && IsCubeCorner(e.to)
    && Differing(e.from, e.to) == 1
    && e.from.a <= e.to.a && e.from.b <= e.to.b && e.from.c <= e.to.c
  }

  /** Every row joins two cube corners that differ in exactly one coordinate,
      and runs from 0 to 1 in that coordinate. */
  lemma CubeRowsAreEdges()
    ensures |Cube| == 12
    ensures forall e :: e in Cube ==> UnitStep(e)
  {
  }

  /** No edge of the cube is listed twice, in either direction. */
  lemma CubeRowsDistinct()
    ensures forall i, j :: 0 <= i < |Cube| && 0 <= j < |Cube| && Joins(Cube[j], Cube[i].from, Cube[i].to) ==> i == j
  {
  }

  /** Every edge of the unit cube is listed. */
  lemma CubeRowsComplete()
    ensures forall p, q :: IsCubeCorner(p) && IsCubeCorner(q) && Differing(p, q) == 1 ==>
      exists k :: 0 <= k < |Cube| && Joins(Cube[k], p, q)
  {
    forall p, q | IsCubeCorner(p) && IsCubeCorner(q) && Differing(p, q) == 1
      ensures exists k :: 0 <= k < |Cube| && Joins(Cube[k], p, q)
    {
      var up := p.a <= q.a && p.b <= q.b && p.c <= q.c;
      var e := if up then Edge(p, q) else Edge(q, p);
      assert e in Cube;
    }
  }

  /** A Cartesian vector. */
  datatype Vec = Vec(x: real, y: real, z: real)

  /** The cell matrix of a structure: its three cell vectors as rows. */
  datatype Cell = Cell(a: Vec, b: Vec, c: Vec)

  /** What `plot_atoms` needs of a structure: the cell `atoms.cell` holds
      when the wireframe loop runs, and the atoms' positions once replicated
      by `repeat`, for `len(atoms)`. */
  datatype Atoms = Atoms(cell: Cell, positions: seq<Vec>)

  /** Column `axis` of a position: 0, 1, 2 for x, y, z. */
  function Coord(v: Vec, axis: nat): real
    requires axis < 3
  {
    if axis == 0 then v.x else if axis == 1 then v.y else v.z
  }

  function Scale(k: int, v: Vec): Vec {
    Vec(k as real * v.x, k as real * v.y, k as real * v.z)
  }

  function Add(u: Vec, v: Vec): Vec {
    Vec(u.x + v.x, u.y + v.y, u.z + v.z)
  }

  /** `np.dot(corner, cell)`: the fractional corner as a Cartesian point,
      the corner's coordinates weighting the rows of the cell matrix. */
  function ToCartesian(p: Corner, cell: Cell): (r: Vec)
    ensures p == Corner(0, 0, 0) ==> r == Vec(0.0, 0.0, 0.0)
    ensures p == Corner(1, 0, 0) ==> r == cell.a
    ensures p == Corner(0, 1, 0) ==> r == cell.b
    ensures p == Corner(0, 0, 1) ==> r == cell.c
  {
    Add(Add(Scale(p.a, cell.a), Scale(p.b, cell.b)), Scale(p.c, cell.c))
  }

  /** The cell vector along which an edge runs. */
  function Direction(e: Edge, cell: Cell): Vec {
    if e.from.a != e.to.a then cell.a else if e.from.b != e.to.b then cell.b else cell.c
  }

  /** Along a unit step the Cartesian end point is the start plus the cell
      vector of the coordinate that changes. */
  lemma {:induction false} UnitStepAddsDirection(e: Edge, cell: Cell)
    ensures UnitStep(e) ==> ToCartesian(e.to, cell) == Add(ToCartesian(e.from, cell), Direction(e, cell))
  {
    var p, q := e.from, e.to;
    if UnitStep(e) {
      if p.a != q.a {
        assert p.a == 0 && q.a == 1 && p.b == q.b && p.c == q.c;
      } else if p.b != q.b {
        assert p.b == 0 && q.b == 1 && p.c == q.c;
      } else {
        assert p.c == 0 && q.c == 1;
      }
    }
  }

  /** One `ax.plot(xs, ys)` call: a line through two points of the plane. */
  datatype Segment = Segment(xs: (real, real), ys: (real, real))

  /** The segment drawn for an edge: both end points in Cartesian
      coordinates, columns `h` and `v` kept. For an edge of the unit cube
      it starts at the projected first corner and spans the projected cell
      vector the edge runs along. */
  function EdgeSegment(e: Edge, cell: Cell, h: nat, v: nat): (r: Segment)
    requires h < 3 && v < 3
    ensures r.xs.0 == Coord(ToCartesian(e.from, cell), h) && r.ys.0 == Coord(ToCartesian(e.from, cell), v)
    ensures UnitStep(e) ==>
      && r.xs.1 - r.xs.0 == Coord(Direction(e, cell), h)
      && r.ys.1 - r.ys.0 == Coord(Direction(e, cell), v)
  {
    UnitStepAddsDirection(e, cell);
    var p, q := ToCartesian(e.from, cell), ToCartesian(e.to, cell);
    Segment((Coord(p, h), Coord(q, h)), (Coord(p, v), Coord(q, v)))
  }

  /** The wireframe: one segment per row of `cube`, in table order. */
  function Outline(cell: Cell, h: nat, v: nat): (r: seq<Segment>)
    requires h < 3 && v < 3
    ensures |r| == |Cube|
    ensures forall k :: 0 <= k < |r| ==> r[k] == EdgeSegment(Cube[k], cell, h, v)
  {
    seq(|Cube|, k requires 0 <= k < |Cube| => EdgeSegment(Cube[k], cell, h, v))
  }

  /** Each drawn segment is the projection of one cell vector, placed at the
      projection of a cube corner: the wireframe is the cell's parallelepiped
      seen along the depth axis. */
  lemma {:induction false} OutlineSegmentsAreCellVectors(cell: Cell, h: nat, v: nat, k: nat)
    requires h < 3 && v < 3 && k < |Cube|
    ensures var s, e := Outline(cell, h, v)[k], Cube[k];
      && s.xs.0 == Coord(ToCartesian(e.from, cell), h)
      && s.ys.0 == Coord(ToCartesian(e.from, cell), v)
      && s.xs.1 - s.xs.0 == Coord(Direction(e, cell), h)
      && s.ys.1 - s.ys.0 == Coord(Direction(e, cell), v)
  {
    CubeRowsAreEdges();
    assert Cube[k] in Cube;
  }

  /** The drawing surface, reduced to the line segments plotted on it and
      its two axis labels. */
  class Canvas {
    var lines: seq<Segment>
    var xLabel: string
    var yLabel: string

    constructor ()
      ensures lines == [] && xLabel == "" && yLabel == ""
    {
      lines, xLabel, yLabel := [], "", "";
    }

    /** `ax.plot(xs, ys, 'k-')`. */
    method Plot(s: Segment)
      modifies this
      ensures lines == old(lines) + [s]
      ensures xLabel == old(xLabel) && yLabel == old(yLabel)
    {
      lines := lines + [s];
    }

    /** `ax.set_xlabel(text)`. */
    method SetXLabel(text: string)
      modifies this
      ensures xLabel == text
      ensures lines == old(lines) && yLabel == old(yLabel)
    {
      xLabel := text;
    }

    /** `ax.set_ylabel(text)`. */
    method SetYLabel(text: string)
      modifies this
      ensures yLabel == text
      ensures lines == old(lines) && xLabel == old(xLabel)
    {
      yLabel := text;
    }
  }

  /** The exceptions `plot_atoms` can raise. */
  datatype PlotError =
    | BadPlane(cause: Plane.PlaneError)  // raised by `plane2axes`
    | AxesIndex                          // `axes[1]` on a one-entry `axes`, in the wireframe loop
    | DepthIndex                         // `axes[2]` on a two-entry `axes`, sorting the atoms by depth

  /** Planes with one recognised letter resolve to two axes, so `plot_atoms`
      draws their wireframe and then, given atoms, fails at `axes[2]`. */
  lemma {:induction false} OneLetterPlanes()
    ensures Plane.Plane2AxesSpec("x") == Ok([0, 1])
    ensures Plane.Plane2AxesSpec("xa") == Ok([0, 1])
  {
    var x, xa: string := "x", "xa";
    assert x[1..] == [] && xa[1..] == "a" && "a"[1..] == [];
    assert Plane.Recognised("a") == [];
    assert Plane.Recognised(x) == [0] && Plane.Recognised(xa) == [0];
    assert [0][..0] == [] && Plane.FirstRepeat([0]) == None;
    Plane.UnnamedUnfold([0]);
    assert Plane.Unnamed([0]) == [1, 2];
    assert [0] + [1] == [0, 1];
  }

  /** The wireframe loop of `plot_atoms`: one `ax.plot` per row of `cube`,
      in table order, with columns `h` and `v` of the projected corners. */
  method DrawOutline(canvas: Canvas, cell: Cell, h: nat, v: nat)
    requires h < 3 && v < 3
    modifies canvas
    ensures canvas.lines == old(canvas.lines) + Outline(cell, h, v)
    ensures canvas.xLabel == old(canvas.xLabel) && canvas.yLabel == old(canvas.yLabel)
  {
    for k := 0 to |Cube|
      invariant canvas.lines == old(canvas.lines) + Outline(cell, h, v)[..k]
      invariant canvas.xLabel == old(canvas.xLabel) && canvas.yLabel == old(canvas.yLabel)
    {
      canvas.Plot(EdgeSegment(Cube[k], cell, h, v));
    }
    assert Outline(cell, h, v)[..|Cube|] == Outline(cell, h, v);
  }

  /** The control flow of `plot_atoms` around its wireframe loop: resolve the
      plane, draw one segment per row of `cube` — with or without atoms — and
      then, only when there are atoms, sort them along the depth axis
      `axes[2]` and label the axes with the two letters of the plane. The
      labels always exist: three axes need two recognised letters. */
  method PlotAtoms(canvas: Canvas, atoms: Atoms, plane: string := "xy") returns (r: Result<(), PlotError>)
    modifies canvas
    ensures match Plane.Plane2AxesSpec(plane)
      case Err(e) => r == Err(BadPlane(e)) && unchanged(canvas)
      case Ok(axes) =>
        if |axes| < 2 then r == Err(AxesIndex) && unchanged(canvas)
        else
          && axes[0] < 3 && axes[1] < 3
          && canvas.lines == old(canvas.lines) + Outline(atoms.cell, axes[0], axes[1])
          && r == (if |atoms.positions| > 0 && |axes| < 3 then Err(DepthIndex) else Ok(()))
          && if |atoms.positions| > 0 && |axes| >= 3
             then |plane| >= 2 && canvas.xLabel == [plane[0]] && canvas.yLabel == [plane[1]]
             else canvas.xLabel == old(canvas.xLabel) && canvas.yLabel == old(canvas.yLabel)
  {
    var resolved := Plane.Plane2Axes(plane);
    if resolved.Err? {
      return Err(BadPlane(resolved.error));
    }
    var axes := resolved.value;
    Plane.Plane2AxesBounds(plane);
    if |axes| < 2 {
      // the first pass of the wireframe loop reads `axes[1]` before plotting
      return Err(AxesIndex);
    }
    DrawOutline(canvas, atoms.cell, axes[0], axes[1]);
    if |atoms.positions| > 0 {
      // `atoms.positions[:, axes[:2]]` is fine; the depth sort reads `axes[2]`
      if |axes| < 3 {
        return Err(DepthIndex);
      }
      // the atom disks are drawn here, then the axes are labelled
      Plane.ThreeAxesNeedTwoLetters(plane);
      canvas.SetXLabel([plane[0]]);
      canvas.SetYLabel([plane[1]]);
    }
    return Ok(());
  }
}
