/** The terrain grid's obstacle mask (src/world/map.py): a single unbounded
    integer `graph` whose bit `i * length + j` marks grid cell (i, j) as
    occupied by an obstacle. */
module GridMap {
  import opened Common
  import opened Bits

  /** The exceptions the mask operations can raise. */
  datatype MapError =
    | ZeroDivisionError   // a zero map dimension in `normalize`
    | NegativeShiftCount  // `1 << k` with a negative cell index (ValueError)
    | NameError           // `remove` names an undefined variable

  datatype Cell = Cell(i: int, j: int)

  /** `normalize`: x is divided by the map's HEIGHT and y by its LENGTH, and
      each quotient is truncated toward zero by `int()`. */
  function Normalize(pos: Pos, length: int, height: int): (r: Result<Cell, MapError>)
    ensures r.Err? <==> height == 0 || length == 0
    ensures r.Err? ==> r.error == ZeroDivisionError
  {
    if height == 0 || length == 0 then Err(ZeroDivisionError)
    else Ok(Cell(Trunc(pos.x / height as real), Trunc(pos.y / length as real)))
  }

  /** Multiplying back a quotient's bounds by its positive divisor. */
  lemma QuotientBounds(x: real, h: real, lo: real, hi: real)
    requires 0.0 < h && lo <= x / h < hi
    ensures lo * h <= x < hi * h
  {
    var t := x / h;
    assert t * h == x;
    assert lo * h <= t * h;
    assert t * h < hi * h;
  }

  /** For a non-negative position and positive limits, `normalize` is the
      floor of each quotient, and the cell it names contains the position. */
  lemma NormalizeFindsContainingCell(pos: Pos, length: int, height: int)
    requires 0.0 <= pos.x && 0.0 <= pos.y
    requires 0 < length && 0 < height
    ensures Normalize(pos, length, height)
            == Ok(Cell((pos.x / height as real).Floor, (pos.y / length as real).Floor))
    ensures var c := Normalize(pos, length, height).value;
      && c.i as real * height as real <= pos.x < (c.i + 1) as real * height as real
      && c.j as real * length as real <= pos.y < (c.j + 1) as real * length as real
  {
    var h, l := height as real, length as real;
    var c := Normalize(pos, length, height).value;
    assert 0.0 <= pos.x / h && 0.0 <= pos.y / l;
    QuotientBounds(pos.x, h, c.i as real, (c.i + 1) as real);
    QuotientBounds(pos.y, l, c.j as real, (c.j + 1) as real);
  }

  /** The shift count `i * length + j` for an object, or the exception computing
      `1 << (i * length + j)` raises. */
  function CellIndex(pos: Pos, length: int, height: int): Result<nat, MapError>
  {
    match Normalize(pos, length, height)
    case Err(e) => Err(e)
    case Ok(c) =>
      if c.i * length + c.j < 0 then Err(NegativeShiftCount) else Ok(c.i * length + c.j)
  }

  /** What one loop iteration does to `graph` at shift count `k`. */
  datatype MaskOp =
    | SetCell     // `graph |= 1 << k`           (add)
    | KeepBelow   // `graph &= (1 << k) - 1`     (remove, as written)
    | ClearCell   // `graph &= ~(1 << k)`        (what remove evidently means)

  function ApplyOp(op: MaskOp, g: nat, k: nat): nat {
    match op
    case SetCell => Or(g, Pow2(k))
    case KeepBelow => And(g, Pow2(k) - 1)
    case ClearCell => ClearBit(g, k)
  }

  /** The mask after a loop over `objs`, and the exception that stopped it. */
  datatype Applied = Applied(graph: nat, error: Option<MapError>)

  /** The loop of `add` and `remove`: objects in order; an exception leaves the
      updates already made and skips the rest. */
  function Sweep(op: MaskOp, g: nat, objs: seq<Pos>, length: int, height: int): Applied
    decreases |objs|
  {
    if objs == [] then Applied(g, None)
    else match CellIndex(objs[0], length, height)
      case Err(e) => Applied(g, Some(e))
      case Ok(k) => Sweep(op, ApplyOp(op, g, k), objs[1..], length, height)
  }

  /** The cells a sweep reaches: those of the objects before the first failing one. */
  function Reached(objs: seq<Pos>, length: int, height: int): set<nat>
    decreases |objs|
  {
    if objs == [] then {}
    else match CellIndex(objs[0], length, height)
      case Err(_) => {}
      case Ok(k) => {k} + Reached(objs[1..], length, height)
  }

  /** The exception of the first object whose cell cannot be computed. */
  function FirstError(objs: seq<Pos>, length: int, height: int): Option<MapError>
    decreases |objs|
  {
    if objs == [] then None
    else match CellIndex(objs[0], length, height)
      case Err(e) => Some(e)
      case Ok(_) => FirstError(objs[1..], length, height)
  }

  /** A sweep fails exactly at the first object without a cell, whatever the
      operation and the starting mask; when none fails it reaches every cell. */
  lemma {:induction false} SweepError(op: MaskOp, g: nat, objs: seq<Pos>, length: int, height: int)
    ensures Sweep(op, g, objs, length, height).error == FirstError(objs, length, height)
    ensures FirstError(objs, length, height) == None <==>
            forall n :: 0 <= n < |objs| ==> CellIndex(objs[n], length, height).Ok?
    ensures FirstError(objs, length, height) == None ==>
            forall n :: 0 <= n < |objs| ==> CellIndex(objs[n], length, height).value in Reached(objs, length, height)
    decreases |objs|
  {
    if objs != [] {
      match CellIndex(objs[0], length, height)
      case Err(e) =>
      case Ok(k) =>
        SweepError(op, ApplyOp(op, g, k), objs[1..], length, height);
        assert forall n :: 0 < n < |objs| ==> objs[n] == objs[1..][n - 1];
    }
  }

  /** `add` sets exactly the reached cells' bits and keeps every other bit. */
  lemma {:induction false} AddBits(g: nat, objs: seq<Pos>, length: int, height: int, i: nat)
    ensures Bit(Sweep(SetCell, g, objs, length, height).graph, i)
            == (Bit(g, i) || i in Reached(objs, length, height))
    decreases |objs|
  {
    if objs != [] {
      match CellIndex(objs[0], length, height)
      case Err(e) =>
      case Ok(k) =>
        var g' := Or(g, Pow2(k));
        AddBits(g', objs[1..], length, height, i);
        BitOr(g, Pow2(k), i);
        BitPow2(k, i);
    }
  }

  /** Index `i` lies below every cell in `cells`. */
  predicate BelowAll(i: nat, cells: set<nat>) {
    forall k :: k in cells ==> i < k
  }

  /** `remove` as written: a bit survives only when it was set and lies below
      every reached cell, so each reached cell clears its own bit AND every
      higher bit; bits below all reached cells are untouched. */
  lemma {:induction false} RemoveBits(g: nat, objs: seq<Pos>, length: int, height: int, i: nat)
    ensures Bit(Sweep(KeepBelow, g, objs, length, height).graph, i)
            == (Bit(g, i) && BelowAll(i, Reached(objs, length, height)))
    decreases |objs|
  {
    if objs != [] {
      match CellIndex(objs[0], length, height)
      case Err(e) =>
      case Ok(k) =>
        var g' := And(g, Pow2(k) - 1);
        var rest := Reached(objs[1..], length, height);
        assert Reached(objs, length, height) == {k} + rest;
        RemoveBits(g', objs[1..], length, height, i);
        BitAnd(g, Pow2(k) - 1, i);
        BitLowMask(k, i);
        assert BelowAll(i, {k} + rest) <==> i < k && BelowAll(i, rest);
    }
  }

  /** The evident intent of `remove`: exactly the reached cells' bits are cleared. */
  lemma {:induction false} ClearBits(g: nat, objs: seq<Pos>, length: int, height: int, i: nat)
    ensures Bit(Sweep(ClearCell, g, objs, length, height).graph, i)
            == (Bit(g, i) && i !in Reached(objs, length, height))
    decreases |objs|
  {
    if objs != [] {
      match CellIndex(objs[0], length, height)
      case Err(e) =>
      case Ok(k) =>
        ClearBits(ClearBit(g, k), objs[1..], length, height, i);
        BitClearBit(g, k, i);
    }
  }

  /** After an `add` that raised nothing, every obstacle's cell bit is set. */
  lemma AddMarksEveryObstacle(g: nat, objs: seq<Pos>, length: int, height: int)
    requires Sweep(SetCell, g, objs, length, height).error == None
    ensures forall n :: 0 <= n < |objs| ==>
      CellIndex(objs[n], length, height).Ok? &&
      Bit(Sweep(SetCell, g, objs, length, height).graph, CellIndex(objs[n], length, height).value)
  {
    SweepError(SetCell, g, objs, length, height);
    forall n | 0 <= n < |objs|
      ensures Bit(Sweep(SetCell, g, objs, length, height).graph, CellIndex(objs[n], length, height).value)
    {
      AddBits(g, objs, length, height, CellIndex(objs[n], length, height).value);
    }
  }

  /** `add` never clears a bit, even when it stops on an exception. */
  lemma AddIsMonotone(g: nat, objs: seq<Pos>, length: int, height: int, i: nat)
    requires Bit(g, i)
    ensures Bit(Sweep(SetCell, g, objs, length, height).graph, i)
  {
    AddBits(g, objs, length, height, i);
  }

  /** Adding the same obstacles twice leaves the same mask (and the same
      exception) as adding them once; adding none changes nothing. */
  lemma AddIsIdempotent(g: nat, objs: seq<Pos>, length: int, height: int)
    ensures var once := Sweep(SetCell, g, objs, length, height);
      Sweep(SetCell, once.graph, objs, length, height) == once
    ensures Sweep(SetCell, g, [], length, height) == Applied(g, None)
  {
    var once := Sweep(SetCell, g, objs, length, height);
    var twice := Sweep(SetCell, once.graph, objs, length, height);
    forall i: nat ensures Bit(twice.graph, i) == Bit(once.graph, i) {
      AddBits(g, objs, length, height, i);
      AddBits(once.graph, objs, length, height, i);
    }
    SameBitsSameNumber(twice.graph, once.graph);
    SweepError(SetCell, g, objs, length, height);
    SweepError(SetCell, once.graph, objs, length, height);
  }

  /** `remove` as written never sets a bit: its result is a submask of the input. */
  lemma RemoveIsSubmask(g: nat, objs: seq<Pos>, length: int, height: int, i: nat)
    requires Bit(Sweep(KeepBelow, g, objs, length, height).graph, i)
    ensures Bit(g, i)
  {
    RemoveBits(g, objs, length, height, i);
  }

  /** The defect in `remove`: on a 1x1 grid with cells 0 and 1 occupied (graph
      0b11), removing an obstacle at the origin also empties cell 1. The intended
      clear keeps it. */
  lemma RemoveClearsHigherCells()
    ensures Sweep(KeepBelow, 3, [Pos(0.0, 0.0)], 1, 1) == Applied(0, None)
    ensures Sweep(ClearCell, 3, [Pos(0.0, 0.0)], 1, 1) == Applied(2, None)
  {
    assert CellIndex(Pos(0.0, 0.0), 1, 1) == Ok(0);
    assert And(3, 0) == 0;
    assert ClearBit(3, 0) == 2;
  }

  /** Clearing undoes adding: removing (as intended) the obstacles just added
      restores any mask none of whose reached cells was occupied. */
  lemma ClearUndoesAdd(g: nat, objs: seq<Pos>, length: int, height: int)
    requires forall k :: k in Reached(objs, length, height) ==> !Bit(g, k)
    ensures Sweep(ClearCell, Sweep(SetCell, g, objs, length, height).graph, objs, length, height).graph == g
  {
    var added := Sweep(SetCell, g, objs, length, height).graph;
    var back := Sweep(ClearCell, added, objs, length, height).graph;
    forall i: nat ensures Bit(back, i) == Bit(g, i) {
      ClearBits(added, objs, length, height, i);
      AddBits(g, objs, length, height, i);
    }
    SameBitsSameNumber(back, g);
  }

  /** The map object: its limits and the obstacle mask. */
  class Map {
    var graph: nat
    const length: int
    const height: int

    constructor (limit: (int, int))
      ensures graph == 0 && length == limit.0 && height == limit.1
    {
      graph := 0;
      length := limit.0;
      height := limit.1;
    }

    /** The loop both `add` and `remove` run, one object at a time. */
    method SweepObjects(op: MaskOp, objs: seq<Pos>) returns (error: Option<MapError>)
      modifies this
      ensures Applied(graph, error) == Sweep(op, old(graph), objs, length, height)
    {
      var n := 0;
      error := None;
      while n < |objs|
        invariant 0 <= n <= |objs|
        invariant Sweep(op, graph, objs[n..], length, height) == Sweep(op, old(graph), objs, length, height)
      {
        assert objs[n..][1..] == objs[n + 1..];
        match CellIndex(objs[n], length, height)
        case Err(e) =>
          error := Some(e);
          return;
        case Ok(k) =>
          graph := ApplyOp(op, graph, k);
        n := n + 1;
      }
    }

    /** `add`: set the bit of every obstacle's cell. */
    method Add(obstacles: seq<Pos>) returns (error: Option<MapError>)
      modifies this
      ensures Applied(graph, error) == Sweep(SetCell, old(graph), obstacles, length, height)
    {
      error := SweepObjects(SetCell, obstacles);
    }

    /** `remove` as written, except that it loops over its parameter: each
        obstacle's cell `k` applies `graph &= (1 << k) - 1`. */
    method Remove(obstables: seq<Pos>) returns (error: Option<MapError>)
      modifies this
      ensures Applied(graph, error) == Sweep(KeepBelow, old(graph), obstables, length, height)
    {
      error := SweepObjects(KeepBelow, obstables);
    }

    /** `remove` exactly as written: its loop names `obstacles`, which is not
        defined, so every call raises NameError before touching the mask. */
    method RemoveAsWritten(obstables: seq<Pos>) returns (error: Option<MapError>)
      ensures error == Some(NameError)
    {
      error := Some(NameError);
    }

    /** What `remove` evidently means: `graph &= ~(1 << k)` for each obstacle. */
    method ClearCells(obstacles: seq<Pos>) returns (error: Option<MapError>)
      modifies this
      ensures Applied(graph, error) == Sweep(ClearCell, old(graph), obstacles, length, height)
    {
      error := SweepObjects(ClearCell, obstacles);
    }
  }
}
