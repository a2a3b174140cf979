/**
 * `Manager.event` of meter/grid.py: how an input event travels down the
 * widget tree. The tree is taken as a value (`Node`), so that nested
 * managers can be followed by recursion; `Dispatch` runs the same routing
 * as a loop over the children of a live `GridingManager`.
 */
module Routing {
  import opened Base
  import opened Events
  import opened Grid

  /** A widget-tree node: a pane (a leaf widget) or a griding manager with its placed children. */
  datatype Node =
    | Leaf(pane: Gridable, visible: bool, colSpan: int, rowSpan: int)
    | Manager(visible: bool, colSpan: int, rowSpan: int, rows: int, columns: int, entries: seq<Entry>)

  /** A child of a manager together with its (column, row). */
  datatype Entry = Entry(child: Node, cell: Cell)

  /**
   * Every manager in the tree keeps its children's cells inside its grid,
   * with non-negative coordinates, so no placement divides by zero.
   */
  ghost predicate WellFormed(g: Node)
  {
    g.Manager? ==>
      && (forall i | 0 <= i < |g.entries| ::
            0 <= g.entries[i].cell.column < g.columns && 0 <= g.entries[i].cell.row < g.rows)
      && (forall i | 0 <= i < |g.entries| :: WellFormed(g.entries[i].child))
  }

  function Offset(origin: Position, rel: Position): Position
  {
    Position(origin.x + rel.x, origin.y + rel.y)
  }

  /**
   * `pygame.Rect(*pos, *size).collidepoint(point)`: the rectangle starts at
   * the whole part of the position and is half-open on the far sides.
   */
  predicate Contains(pos: Position, size: Size, pt: Point)
  {
    var left := pos.x.Floor;
    var top := pos.y.Floor;
    left <= pt.x < left + size.w && top <= pt.y < top + size.h
  }

  /** The absolute position of entry `i` of manager `g` drawn at `origin`. */
  function EntryPosition(g: Node, i: nat, origin: Position, own: Size): Position
    requires g.Manager? && i < |g.entries| && WellFormed(g)
  {
    Offset(origin, CellPosition(own, g.rows, g.columns, g.entries[i].cell))
  }

  /** The size manager `g` of size `own` allots to entry `i`. */
  function EntrySize(g: Node, i: nat, own: Size): Size
    requires g.Manager? && i < |g.entries| && WellFormed(g)
  {
    SpanSize(own, g.rows, g.columns, g.entries[i].child.colSpan, g.entries[i].child.rowSpan)
  }

  /**
   * The panes whose `event` is called, in call order, when manager `g`,
   * drawn at `origin` with size `own`, handles `ev` from its child `i` on.
   * An event without a position goes to every child; a positional one
   * skips invisible children and those whose rectangle misses the point.
   * A child manager passes the event on to its own children.
   */
  function Route(g: Node, i: nat, ev: Event, origin: Position, own: Size): seq<Gridable>
    requires g.Manager? && i <= |g.entries| && WellFormed(g)
    decreases g, |g.entries| - i
  {
    if i == |g.entries| then []
    else
      var c := g.entries[i].child;
      var pos := EntryPosition(g, i, origin, own);
      var size := EntrySize(g, i, own);
      var here :=
        if ev.pos.Some? && (!c.visible || !Contains(pos, size, ev.pos.value)) then []
        else if c.Leaf? then [c.pane]
        else Route(c, 0, ev, pos, size);
      here + Route(g, i + 1, ev, origin, own)
  }

  // ---------------------------------------------------------------- reference: where the panes are

  /** A pane with its own visibility and the absolute rectangle it is given. */
  datatype Placed = Placed(pane: Gridable, visible: bool, pos: Position, size: Size)

  /** Every pane below manager `g` (from child `i` on), depth first, with its rectangle. */
  function Placements(g: Node, i: nat, origin: Position, own: Size): seq<Placed>
    requires g.Manager? && i <= |g.entries| && WellFormed(g)
    decreases g, |g.entries| - i
  {
    if i == |g.entries| then []
    else
      var c := g.entries[i].child;
      var pos := EntryPosition(g, i, origin, own);
      var size := EntrySize(g, i, own);
      (if c.Leaf? then [Placed(c.pane, c.visible, pos, size)] else Placements(c, 0, pos, size))
      + Placements(g, i + 1, origin, own)
  }

  function Panes(ps: seq<Placed>): (r: seq<Gridable>)
    ensures |r| == |ps| && forall j :: 0 <= j < |ps| ==> r[j] == ps[j].pane
  {
    if ps == [] then [] else [ps[0].pane] + Panes(ps[1..])
  }

  /** The visible panes whose rectangle contains `pt`, in order. */
  function HitPanes(ps: seq<Placed>, pt: Point): (r: seq<Gridable>)
    ensures |r| <= |ps|
  {
    if ps == [] then []
    else
      var first := if ps[0].visible && Contains(ps[0].pos, ps[0].size, pt) then [ps[0].pane] else [];
      first + HitPanes(ps[1..], pt)
  }

  lemma {:induction false} PanesAppend(a: seq<Placed>, b: seq<Placed>)
    ensures Panes(a + b) == Panes(a) + Panes(b)
  {
  }

  lemma {:induction false} HitPanesAppend(a: seq<Placed>, b: seq<Placed>, pt: Point)
    ensures HitPanes(a + b, pt) == HitPanes(a, pt) + HitPanes(b, pt)
  {
    if a != [] {
      assert (a + b)[1..] == a[1..] + b;
      HitPanesAppend(a[1..], b, pt);
    } else {
      assert a + b == b;
    }
  }

  /** Each hit is one of the panes. */
  lemma {:induction false} HitPanesWithinPanes(ps: seq<Placed>, pt: Point)
    ensures multiset(HitPanes(ps, pt)) <= multiset(Panes(ps))
  {
    if ps != [] {
      HitPanesWithinPanes(ps[1..], pt);
      assert ps == [ps[0]] + ps[1..];
      PanesAppend([ps[0]], ps[1..]);
    }
  }

  /**
   * An event without a position reaches every pane of the tree, hidden or
   * not, exactly once and in the order of the children.
   */
  lemma {:induction false} BroadcastReachesEveryPane(g: Node, i: nat, ev: Event, origin: Position, own: Size)
    requires g.Manager? && i <= |g.entries| && WellFormed(g) && ev.pos.None?
    ensures Route(g, i, ev, origin, own) == Panes(Placements(g, i, origin, own))
    decreases g, |g.entries| - i
  {
    if i < |g.entries| {
      var c := g.entries[i].child;
      var pos := EntryPosition(g, i, origin, own);
      var size := EntrySize(g, i, own);
      BroadcastReachesEveryPane(g, i + 1, ev, origin, own);
      if c.Manager? {
        BroadcastReachesEveryPane(c, 0, ev, pos, size);
      }
      PanesAppend(if c.Leaf? then [Placed(c.pane, c.visible, pos, size)] else Placements(c, 0, pos, size),
                  Placements(g, i + 1, origin, own));
    }
  }

  /**
   * A positional event reaches only visible panes whose rectangle contains
   * the point, and none more often than it is placed.
   */
  lemma {:induction false} PositionalReachesOnlyHits(g: Node, i: nat, ev: Event, origin: Position, own: Size)
    requires g.Manager? && i <= |g.entries| && WellFormed(g) && ev.pos.Some?
    ensures multiset(Route(g, i, ev, origin, own)) <= multiset(HitPanes(Placements(g, i, origin, own), ev.pos.value))
    decreases g, |g.entries| - i
  {
    if i < |g.entries| {
      var c := g.entries[i].child;
      var pos := EntryPosition(g, i, origin, own);
      var size := EntrySize(g, i, own);
      var pt := ev.pos.value;
      var here :=
        if !c.visible || !Contains(pos, size, pt) then []
        else if c.Leaf? then [c.pane]
        else Route(c, 0, ev, pos, size);
      var first := if c.Leaf? then [Placed(c.pane, c.visible, pos, size)] else Placements(c, 0, pos, size);
      var rest := Placements(g, i + 1, origin, own);
      assert Route(g, i, ev, origin, own) == here + Route(g, i + 1, ev, origin, own);
      assert Placements(g, i, origin, own) == first + rest;
      PositionalReachesOnlyHits(g, i + 1, ev, origin, own);
      HitPanesAppend(first, rest, pt);
      assert multiset(here) <= multiset(HitPanes(first, pt)) by {
        if here != [] && c.Manager? {
          PositionalReachesOnlyHits(c, 0, ev, pos, size);
        } else if here != [] {
          assert HitPanes(first, pt) == [c.pane] + HitPanes([], pt);
        }
      }
    }
  }

  /**
   * For a manager whose children are all panes, a positional event reaches
   * exactly the visible children whose rectangle contains the point, in
   * the order of the children.
   */
  lemma {:induction false} FlatPositionalIsExact(g: Node, i: nat, ev: Event, origin: Position, own: Size)
    requires g.Manager? && i <= |g.entries| && WellFormed(g) && ev.pos.Some?
    requires forall j | 0 <= j < |g.entries| :: g.entries[j].child.Leaf?
    ensures Route(g, i, ev, origin, own) == HitPanes(Placements(g, i, origin, own), ev.pos.value)
    decreases |g.entries| - i
  {
    if i < |g.entries| {
      var c := g.entries[i].child;
      var pos := EntryPosition(g, i, origin, own);
      var size := EntrySize(g, i, own);
      FlatPositionalIsExact(g, i + 1, ev, origin, own);
      HitPanesAppend([Placed(c.pane, c.visible, pos, size)], Placements(g, i + 1, origin, own), ev.pos.value);
    }
  }

  // ---------------------------------------------------------------- the live manager

  /** The children of a manager as tree entries, in dictionary order, each seen as a pane. */
  function EntriesOf(ks: seq<Gridable>, cells: map<Gridable, Cell>): (es: seq<Entry>)
    requires forall k | k in ks :: k in cells
    reads set k | k in ks
    ensures |es| == |ks|
    ensures forall j :: 0 <= j < |ks| ==>
      es[j] == Entry(Leaf(ks[j], ks[j].visible, ks[j].colSpan, ks[j].rowSpan), cells[ks[j]])
  {
    if ks == [] then []
    else
      var k := ks[0];
      [Entry(Leaf(k, k.visible, k.colSpan, k.rowSpan), cells[k])] + EntriesOf(ks[1..], cells)
  }

  /** A manager whose registered cells all have non-negative coordinates. */
  ghost predicate Placeable(m: GridingManager)
    reads m
  {
    && m.Valid()
    && forall c | c in m.children.values ::
         m.children.values[c].column >= 0 && m.children.values[c].row >= 0
  }

  /** The manager seen as a tree node whose children are panes. */
  function Snapshot(m: GridingManager): (g: Node)
    requires Placeable(m)
    reads m, m.node, set k | k in m.children.keys
    ensures g.Manager? && WellFormed(g) && g.rows == m.rows && g.columns == m.columns
    ensures g.entries == EntriesOf(m.children.keys, m.children.values)
  {
    var es := EntriesOf(m.children.keys, m.children.values);
    forall i | 0 <= i < |es|
      ensures 0 <= es[i].cell.column < m.columns && 0 <= es[i].cell.row < m.rows
      ensures es[i].child.Leaf? && WellFormed(es[i].child)
    {
      var k := m.children.keys[i];
      assert k in m.children.values;
      assert es[i].cell == m.children.values[k];
    }
    Manager(m.node.visible, m.node.colSpan, m.node.rowSpan, m.rows, m.columns, es)
  }

  /** The panes of a manager's snapshot are its registered children, in order. */
  lemma SnapshotPanesAreChildren(m: GridingManager, origin: Position, own: Size)
    requires Placeable(m)
    ensures Panes(Placements(Snapshot(m), 0, origin, own)) == m.children.keys
  {
    var g := Snapshot(m);
    var ev := Event(OtherEvent, None);
    BroadcastReachesEveryPane(g, 0, ev, origin, own);
    FlatRouteOfSnapshot(m, 0, ev, origin, own);
  }

  /** Broadcasting over a snapshot yields the children from `i` on. */
  lemma {:induction false} FlatRouteOfSnapshot(m: GridingManager, i: nat, ev: Event, origin: Position, own: Size)
    requires Placeable(m) && i <= |m.children.keys| && ev.pos.None?
    ensures Route(Snapshot(m), i, ev, origin, own) == m.children.keys[i..]
    decreases |m.children.keys| - i
  {
    if i < |m.children.keys| {
      var g := Snapshot(m);
      var k := m.children.keys[i];
      assert g.entries[i].child == Leaf(k, k.visible, k.colSpan, k.rowSpan);
      assert Route(g, i, ev, origin, own) == [k] + Route(g, i + 1, ev, origin, own);
      FlatRouteOfSnapshot(m, i + 1, ev, origin, own);
      assert m.children.keys[i..] == [k] + m.children.keys[i + 1..];
    }
  }

  /** One step of the routing over a snapshot, in the manager's own terms. */
  lemma DispatchStep(m: GridingManager, i: nat, ev: Event, origin: Position, own: Size, pos: Position, size: Size)
    requires Placeable(m) && i < |m.children.keys|
    requires m.RequestPosition(m.children.keys[i], own) == Success(Position(pos.x - origin.x, pos.y - origin.y))
    requires m.RequestSize(m.children.keys[i], own) == Success(size)
    ensures var child := m.children.keys[i];
      var here := if ev.pos.Some? && (!child.visible || !Contains(pos, size, ev.pos.value)) then [] else [child];
      Route(Snapshot(m), i, ev, origin, own) == here + Route(Snapshot(m), i + 1, ev, origin, own)
  {
    var g := Snapshot(m);
    var child := m.children.keys[i];
    assert child in m.children.values;
    RegisteredChildIsPlaced(m, child, own);
    assert g.entries[i] == Entry(Leaf(child, child.visible, child.colSpan, child.rowSpan), m.children.values[child]);
    assert pos == EntryPosition(g, i, origin, own);
  }

  /**
   * `Manager.event` on a live manager whose children are panes: the loop
   * visits the children in dictionary order, asks the manager for each
   * one's position and size, and collects the children whose `event` is
   * called, which is what `Route` says of the manager's snapshot.
   */
  method Dispatch(m: GridingManager, ev: Event, origin: Position, own: Size) returns (recipients: seq<Gridable>)
    requires Placeable(m)
    ensures recipients == Route(Snapshot(m), 0, ev, origin, own)
  {
    ghost var g := Snapshot(m);
    var keys := m.children.keys;
    recipients := [];
    var i := 0;
    while i < |keys|
      invariant 0 <= i <= |keys| && keys == m.children.keys
      invariant recipients + Route(g, i, ev, origin, own) == Route(g, 0, ev, origin, own)
    {
      var here := DispatchTo(m, i, ev, origin, own);
      AppendAssoc(recipients, here, Route(g, i + 1, ev, origin, own));
      recipients := recipients + here;
      i := i + 1;
    }
  }

  /**
   * The loop body of `Manager.event` for child `i`: the child's rectangle
   * from the manager, and the child itself when it takes the event.
   */
  method DispatchTo(m: GridingManager, i: nat, ev: Event, origin: Position, own: Size) returns (here: seq<Gridable>)
    requires Placeable(m) && i < |m.children.keys|
    ensures Route(Snapshot(m), i, ev, origin, own) == here + Route(Snapshot(m), i + 1, ev, origin, own)
  {
    var child := m.children.keys[i];
    RegisteredChildIsPlaced(m, child, own);
    var rel := m.RequestPosition(child, own).value;
    var size := m.RequestSize(child, own).value;
    var pos := Offset(origin, rel);
    here := if ev.pos.Some? && (!child.visible || !Contains(pos, size, ev.pos.value)) then [] else [child];
    DispatchStep(m, i, ev, origin, own, pos, size);
  }

  lemma AppendAssoc<T>(a: seq<T>, b: seq<T>, c: seq<T>)
    ensures (a + b) + c == a + (b + c)
  {
  }
}
