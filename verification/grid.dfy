/**
 * The widget-tree managers of meter/grid.py: a `GridingManager` that places
 * children on a grid of equal cells, a `SingleManager` that hands its whole
 * area to one child, and the `RootWindow` that holds the stack of top-level
 * managers and owns the screen.
 *
 * Python's `Gridable` base class (parent, visibility, spans) is the class
 * `Gridable` here; a widget or manager that "is" a Gridable in the source
 * holds one as its `node`.
 */
module Grid {
  import opened Base
  import opened Events
  import Dicts

  datatype Size = Size(w: int, h: int)
  datatype Position = Position(x: real, y: real)
  datatype Cell = Cell(column: int, row: int)

  // ---------------------------------------------------------------- cell arithmetic

  /** Python's `a // b`, rounding toward negative infinity for either sign of `b`. */
  function FloorDiv(a: int, b: int): (q: int)
    requires b != 0
    ensures b > 0 ==> q * b <= a < q * b + b
    ensures b < 0 ==> q * b >= a > q * b + b
  {
    if b > 0 then a / b else (-a) / (-b)
  }

  /** Where cell `index` starts along one axis of length `len` split into `count` parts (true division). */
  function CellStart(len: int, count: int, index: int): real
    requires count != 0
  {
    len as real / count as real * index as real
  }

  /** The length of `span` cells along one axis (floor division). */
  function SpanLength(len: int, count: int, span: int): int
    requires count != 0
  {
    FloorDiv(len, count) * span
  }

  /** `request_position` of a registered child: `(W / columns * column, H / rows * row)`. */
  function CellPosition(own: Size, rows: int, columns: int, cell: Cell): Position
    requires rows != 0 && columns != 0
  {
    Position(CellStart(own.w, columns, cell.column), CellStart(own.h, rows, cell.row))
  }

  /** `request_size` of a registered child: `(W // columns * col_span, H // rows * row_span)`. */
  function SpanSize(own: Size, rows: int, columns: int, colSpan: int, rowSpan: int): Size
    requires rows != 0 && columns != 0
  {
    Size(SpanLength(own.w, columns, colSpan), SpanLength(own.h, rows, rowSpan))
  }

  /** A 400 x 400 manager with 4 x 4 cells gives a child spanning two columns a width of 200. */
  lemma SpanSizeExample()
    ensures SpanSize(Size(400, 400), 4, 4, 2, 1) == Size(200, 100)
  {
  }

  /**
   * Along one axis, a child's extent ends no later than the start of the
   * cell just after its span: floor division never makes a span overrun.
   */
  lemma SpanEndsBeforeNextCell(len: nat, count: int, index: int, span: nat)
    requires count > 0
    ensures CellStart(len, count, index) + SpanLength(len, count, span) as real
      <= CellStart(len, count, index + span)
  {
    var q := FloorDiv(len, count);
    var cell := len as real / count as real;
    assert q * count <= len;
    assert (q as real) * (count as real) <= len as real;
    assert q as real <= cell by {
      assert cell * (count as real) == len as real;
    }
    assert (q * span) as real == (q as real) * (span as real);
    assert (q as real) * (span as real) <= cell * (span as real);
    assert cell * (index + span) as real == cell * (index as real) + cell * (span as real);
  }

  /**
   * Along one axis, a child whose span lies inside the grid starts inside
   * the manager and ends inside it.
   */
  lemma SpanInsideManager(len: nat, count: int, index: int, span: nat)
    requires count > 0 && 0 <= index && index + span <= count
    ensures 0.0 <= CellStart(len, count, index)
    ensures CellStart(len, count, index) + SpanLength(len, count, span) as real <= len as real
  {
    SpanEndsBeforeNextCell(len, count, index, span);
    var cell := len as real / count as real;
    assert 0.0 <= cell;
    assert cell * (index + span) as real <= cell * count as real;
    assert cell * count as real == len as real;
  }

  // ---------------------------------------------------------------- the tree's objects

  /** Who a widget's `parent` attribute refers to. */
  datatype Parent =
    | NoParent
    | GridParent(grid: GridingManager)
    | SingleParent(single: SingleManager)
    | RootParent(root: RootWindow)

  /** The placeable part of a widget: `Gridable.__init__`. */
  class Gridable {
    var parent: Parent
    var visible: bool
    var rowSpan: int
    var colSpan: int

    constructor (rowSpan: int, colSpan: int)
      ensures parent == NoParent && visible
      ensures this.rowSpan == rowSpan && this.colSpan == colSpan
    {
      parent := NoParent;
      visible := true;
      this.rowSpan := rowSpan;
      this.colSpan := colSpan;
    }
  }

  /** The position of the first occurrence of `x`. */
  function IndexOf<T(==)>(s: seq<T>, x: T): (i: nat)
    requires x in s
    ensures i < |s| && s[i] == x && x !in s[..i]
  {
    if s[0] == x then 0
    else
      var j := IndexOf(s[1..], x);
      assert s[..j + 1] == [s[0]] + s[1..][..j];
      1 + j
  }

  /** Python's `list.remove`: the first occurrence of `x` taken out. */
  function RemoveFirst<T(==)>(s: seq<T>, x: T): (r: seq<T>)
    requires x in s
    ensures |r| == |s| - 1
    ensures multiset(r) == multiset(s) - multiset{x}
    ensures r[..IndexOf(s, x)] == s[..IndexOf(s, x)]
    ensures r[IndexOf(s, x)..] == s[IndexOf(s, x) + 1..]
  {
    var i := IndexOf(s, x);
    assert s == s[..i] + [s[i]] + s[i + 1..];
    s[..i] + s[i + 1..]
  }

  class GridingManager {
    const node: Gridable
    var children: Dicts.Dict<Gridable, Cell>
    var rows: int
    var columns: int

    /** Every registered child's cell lies below the row and column counters. */
    ghost predicate Valid()
      reads this
    {
      && children.Valid()
      && 0 <= rows && 0 <= columns
      && (forall c | c in children.values ::
            children.values[c].column < columns && children.values[c].row < rows)
    }

    constructor ()
      ensures Valid() && fresh(node)
      ensures node.parent == NoParent && node.visible && node.rowSpan == 1 && node.colSpan == 1
      ensures children == Dicts.Empty() && rows == 0 && columns == 0
    {
      node := new Gridable(1, 1);
      children := Dicts.Empty();
      rows, columns := 0, 0;
    }

    /** `Manager.remove`: unregisters a present child; the counters are not shrunk. */
    method Remove(child: Gridable)
      requires Valid()
      modifies this
      ensures Valid()
      ensures children.values == old(children.values) - {child}
      ensures children.keys == Dicts.Without(old(children.keys), child)
      ensures rows == old(rows) && columns == old(columns)
    {
      if child in children.values {
        children := Dicts.Delete(children, child);
      } else {
        Dicts.WithoutAbsent(children.keys, child);
      }
    }

    /**
     * `grid`: records the child's cell (replacing an earlier one), grows the
     * counters to cover it, and makes this manager the child's parent.
     */
    method Grid(child: Gridable, column: int, row: int) returns (r: Gridable)
      requires Valid()
      modifies this, child
      ensures Valid()
      ensures children.values == old(children.values)[child := Cell(column, row)]
      ensures children.keys == Dicts.Appended(old(children.keys), child)
      ensures rows == Max(old(rows), row + 1) && columns == Max(old(columns), column + 1)
      ensures child.parent == GridParent(this) && r == child
      ensures child.visible == old(child.visible)
      ensures child.rowSpan == old(child.rowSpan) && child.colSpan == old(child.colSpan)
    {
      rows := Max(rows, row + 1);
      columns := Max(columns, column + 1);
      children := Dicts.Put(children, child, Cell(column, row));
      child.parent := GridParent(this);
      r := child;
    }

    /**
     * `request_position`, given the manager's own size as its parent reports
     * it: (0, 0) for a stranger, the start of the child's cell otherwise.
     */
    function RequestPosition(child: Gridable, own: Size): Result<Position>
      reads this
    {
      if child !in children.values then Success(Position(0.0, 0.0))
      else if rows == 0 || columns == 0 then Failure(ZeroDivisionError)
      else Success(CellPosition(own, rows, columns, children.values[child]))
    }

    /**
     * `request_size`, given the manager's own size: the whole of it for a
     * stranger, the cell size times the child's spans otherwise.
     */
    function RequestSize(child: Gridable, own: Size): Result<Size>
      reads this, child
    {
      if child !in children.values then Success(own)
      else if rows == 0 || columns == 0 then Failure(ZeroDivisionError)
      else Success(SpanSize(own, rows, columns, child.colSpan, child.rowSpan))
    }
  }

  /**
   * A registered child with a non-negative cell can always be placed: the
   * counters are then positive, so neither request divides by zero.
   */
  lemma RegisteredChildIsPlaced(m: GridingManager, child: Gridable, own: Size)
    requires m.Valid() && child in m.children.values
    requires m.children.values[child].column >= 0 && m.children.values[child].row >= 0
    ensures m.rows > 0 && m.columns > 0
    ensures m.RequestPosition(child, own) == Success(CellPosition(own, m.rows, m.columns, m.children.values[child]))
    ensures m.RequestSize(child, own) == Success(SpanSize(own, m.rows, m.columns, child.colSpan, child.rowSpan))
  {
  }

  /**
   * A widget the manager has not registered is placed at the manager's
   * origin and offered the manager's whole area, even while the grid is
   * still empty.
   */
  lemma StrangerGetsWholeArea(m: GridingManager, child: Gridable, own: Size)
    requires child !in m.children.values
    ensures m.RequestPosition(child, own) == Success(Position(0.0, 0.0))
    ensures m.RequestSize(child, own) == Success(own)
  {
  }

  /**
   * A registered child whose spans stay inside the grid gets a rectangle
   * inside the manager's own area.
   */
  lemma RegisteredChildFits(m: GridingManager, child: Gridable, own: Size)
    requires m.Valid() && child in m.children.values && own.w >= 0 && own.h >= 0
    requires var c := m.children.values[child];
      && c.column >= 0 && c.row >= 0 && child.colSpan >= 0 && child.rowSpan >= 0
      && c.column + child.colSpan <= m.columns && c.row + child.rowSpan <= m.rows
    ensures var p := m.RequestPosition(child, own).value;
      var s := m.RequestSize(child, own).value;
      && 0.0 <= p.x && p.x + s.w as real <= own.w as real
      && 0.0 <= p.y && p.y + s.h as real <= own.h as real
  {
    var c := m.children.values[child];
    RegisteredChildIsPlaced(m, child, own);
    SpanInsideManager(own.w, m.columns, c.column, child.colSpan);
    SpanInsideManager(own.h, m.rows, c.row, child.rowSpan);
  }

  /** The single child's holder used by `RootWindow.add_child`. */
  class SingleManager {
    var parent: RootWindow?
    var children: Dicts.Dict<Gridable, ()>

    constructor ()
      ensures parent == null && children == Dicts.Empty()
    {
      parent := null;
      children := Dicts.Empty();
    }

    /** `set_c`: registers the child and becomes its parent. */
    method SetC(child: Gridable) returns (r: Gridable)
      requires children.Valid()
      modifies this, child
      ensures children == Dicts.Put(old(children), child, ())
      ensures child.parent == SingleParent(this) && r == child && parent == old(parent)
      ensures child.visible == old(child.visible)
      ensures child.rowSpan == old(child.rowSpan) && child.colSpan == old(child.colSpan)
    {
      children := Dicts.Put(children, child, ());
      child.parent := SingleParent(this);
      r := child;
    }

    /** `request_position`: the one child sits at the manager's own origin. */
    function RequestPosition(child: Gridable): Position
    {
      Position(0.0, 0.0)
    }

    /** `request_size`: whatever the parent allots this manager; no parent is an AttributeError. */
    function RequestSize(child: Gridable): (r: Result<Size>)
      reads this, parent
      ensures parent != null ==> r == Success(parent.RequestSize(TopSingle(this)))
      ensures parent == null ==> r == Failure(AttributeError)
    {
      if parent == null then Failure(AttributeError) else Success(parent.RequestSize(TopSingle(this)))
    }

    /** `remove_child`: asks the parent to drop this whole manager. */
    method RemoveChild() returns (r: Outcome)
      modifies this, parent
      ensures old(parent) == null ==> r == Fail(AttributeError) && children == old(children)
      ensures old(parent) != null && TopSingle(this) in old(parent.children) ==>
        && old(parent).children == RemoveFirst(old(parent.children), TopSingle(this))
        && parent == null && r == Pass
      ensures old(parent) != null && TopSingle(this) !in old(parent.children) ==>
        old(parent).children == old(parent.children) && r == Pass
      ensures children == old(children)
    {
      if parent == null {
        return Fail(AttributeError);
      }
      r := parent.RemoveChild(TopSingle(this));
    }
  }

  /**
   * A pane the root window has wrapped in a `SingleManager` is placed at
   * the wrapper's origin and given the whole screen.
   */
  lemma WrappedPaneFillsScreen(s: SingleManager, child: Gridable)
    requires s.parent != null
    ensures s.RequestPosition(child) == Position(0.0, 0.0)
    ensures s.RequestSize(child) == Success(s.parent.screen)
  {
  }

  /** A top-level child of the root window: always a manager. */
  datatype TopChild = TopGrid(grid: GridingManager) | TopSingle(single: SingleManager)

  /** What `add_child` accepts: a manager, or any other widget (which gets wrapped). */
  datatype Attachable = AttachManager(grid: GridingManager) | AttachPane(pane: Gridable)

  /** The widget whose `parent` attribute `add_child` assigns directly. */
  function NodeOf(a: Attachable): Gridable
  {
    match a
    case AttachManager(g) => g.node
    case AttachPane(p) => p
  }

  /** The index of the first QUIT event, or the length when there is none. */
  function FirstQuit(polled: seq<Event>): (k: nat)
    ensures k <= |polled|
    ensures forall j :: 0 <= j < k ==> polled[j].kind != Quit
    ensures k < |polled| ==> polled[k].kind == Quit
  {
    if polled == [] then 0
    else if polled[0].kind == Quit then 0
    else 1 + FirstQuit(polled[1..])
  }

  class RootWindow {
    var screen: Size
    var children: seq<TopChild>
    var running: bool

    constructor (screen: Size)
      ensures this.screen == screen && children == [] && running
    {
      this.screen := screen;
      children := [];
      running := true;
    }

    /** `request_size`: the screen size, for any child. */
    function RequestSize(child: TopChild): Size
      reads this
    {
      screen
    }

    /**
     * `add_child`: a manager goes on top of the stack as it is; any other
     * widget is first wrapped in a fresh `SingleManager`. `add_child`
     * itself does not check that a bare widget is unattached; every caller
     * passes one that is (the top-level box, a freshly built message box),
     * and the requires states that assumption.
     */
    method AddChild(child: Attachable) returns (r: TopChild)
      requires child.AttachPane? ==> child.pane.parent.NoParent?
      modifies this, NodeOf(child)
      ensures children == old(children) + [r]
      ensures child.AttachManager? ==> r == TopGrid(child.grid) && child.grid.node.parent == RootParent(this)
      ensures child.AttachPane? ==>
        && r.TopSingle? && fresh(r.single) && r.single.parent == this
        && r.single.children == Dicts.Put(Dicts.Empty(), child.pane, ())
        && child.pane.parent == SingleParent(r.single)
      ensures NodeOf(child).visible == old(NodeOf(child).visible)
      ensures NodeOf(child).rowSpan == old(NodeOf(child).rowSpan)
      ensures NodeOf(child).colSpan == old(NodeOf(child).colSpan)
      ensures screen == old(screen) && running == old(running)
    {
      match child {
        case AttachPane(p) =>
          var nc := new SingleManager();
          var _ := nc.SetC(p);
          r := TopSingle(nc);
          children := children + [r];
          nc.parent := this;
        case AttachManager(g) =>
          r := TopGrid(g);
          children := children + [r];
          g.node.parent := RootParent(this);
      }
    }

    /**
     * `remove_child`: drops the first occurrence of a present child and
     * clears its parent. For a `GridingManager` the `parent` setter asserts
     * that the new parent is a Manager, so clearing it raises
     * AssertionError after the child has left the stack.
     */
    method RemoveChild(child: TopChild) returns (r: Outcome)
      modifies this, if child.TopSingle? then {child.single} else {}
      ensures child in old(children) ==> children == RemoveFirst(old(children), child)
      ensures child !in old(children) ==> children == old(children) && r == Pass
      ensures child in old(children) && child.TopGrid? ==> r == Fail(AssertionError)
      ensures child in old(children) && child.TopSingle? ==> r == Pass && child.single.parent == null
      ensures child.TopSingle? ==> child.single.children == old(child.single.children)
      ensures screen == old(screen) && running == old(running)
    {
      if child in children {
        children := RemoveFirst(children, child);
        match child {
          case TopGrid(g) =>
            return Fail(AssertionError);
          case TopSingle(s) =>
            s.parent := null;
        }
      }
      r := Pass;
    }

    /**
     * The dispatch part of `events`: the polled events are handed, in order,
     * to the topmost child only, until a QUIT, which clears `running` and
     * ends the processing (it is not forwarded).
     */
    method Events(polled: seq<Event>) returns (target: Option<TopChild>, delivered: seq<Event>)
      modifies this`running
      ensures target == if children == [] then None else Some(children[|children| - 1])
      ensures delivered == if children == [] then [] else polled[..FirstQuit(polled)]
      ensures running == (old(running) && FirstQuit(polled) == |polled|)
    {
      target := if children == [] then None else Some(children[|children| - 1]);
      delivered := [];
      var i := 0;
      while i < |polled|
        invariant 0 <= i <= FirstQuit(polled)
        invariant delivered == if children == [] then [] else polled[..i]
        invariant running == old(running)
      {
        if polled[i].kind == Quit {
          running := false;
          return;
        }
        if children != [] {
          assert polled[..i + 1] == polled[..i] + [polled[i]];
          delivered := delivered + [polled[i]];
        }
        i := i + 1;
      }
    }
  }
}
