/**
  * ShipPlacement.js: deploying the human player's fleet on a 10x10 grid.
  * A ship is selected from the tray, clicking a cell places it there (or
  * moves it, when it was already placed) in the current orientation, and
  * confirming hands every placed ship, with its cells, to the caller.
  */
module ShipPlacement {
  import opened Games

  /** The five ships of the tray, in tray order. */
  datatype ShipKind = Carrier | Battleship | Cruiser | Submarine | Destroyer

  const Ships: seq<ShipKind> := [Carrier, Battleship, Cruiser, Submarine, Destroyer]

  function Size(k: ShipKind): nat
  {
    match k
    case Carrier => 5
    case Battleship => 4
    case Cruiser => 3
    case Submarine => 3
    case Destroyer => 2
  }

  function Name(k: ShipKind): string
  {
    match k
    case Carrier => "Carrier"
    case Battleship => "Battleship"
    case Cruiser => "Cruiser"
    case Submarine => "Submarine"
    case Destroyer => "Destroyer"
  }

  function Id(k: ShipKind): string
  {
    match k
    case Carrier => "carrier"
    case Battleship => "battleship"
    case Cruiser => "cruiser"
    case Submarine => "submarine"
    case Destroyer => "destroyer"
  }

  datatype Orientation = Horizontal | Vertical

  /** The rotate button. */
  function Toggle(o: Orientation): (t: Orientation)
    ensures t != o
  {
    if o == Horizontal then Vertical else Horizontal
  }

  /** Two presses of the rotate button restore the orientation. */
  lemma ToggleTwice(o: Orientation)
    ensures Toggle(Toggle(o)) == o
  {
  }

  /** Ship ids name one ship each: a grid cell's id identifies its ship. */
  lemma IdInjective(k1: ShipKind, k2: ShipKind)
    requires Id(k1) == Id(k2)
    ensures k1 == k2
  {
  }

  /** A grid cell: empty (`null`) or the id of the ship on it. */
  type Cell = Option<ShipKind>

  type Grid = seq<seq<Cell>>

  const Side: nat := 10

  predicate InGrid(a: int, b: int)
  {
    0 <= a < Side && 0 <= b < Side
  }

  predicate IsGrid(g: Grid)
  {
    |g| == Side && forall a :: 0 <= a < Side ==> |g[a]| == Side
  }

  /** Cell `(a, b)` is one of the first `n` cells of a ship laid from `(r, c)`. */
  predicate InFootprint(r: int, c: int, o: Orientation, n: int, a: int, b: int)
  {
    if o == Horizontal then a == r && c <= b < c + n
    else b == c && r <= a < r + n
  }

  /** The `i`-th cell of a ship laid from `(r, c)`. */
  function FootprintCell(r: int, c: int, o: Orientation, i: int): (p: (int, int))
    requires i >= 0
    ensures InFootprint(r, c, o, i + 1, p.0, p.1) && !InFootprint(r, c, o, i, p.0, p.1)
  {
    if o == Horizontal then (r, c + i) else (r + i, c)
  }

  /** The test `canPlaceShip` makes before looking at the cells: the ship does not run off the grid. */
  predicate Fits(r: int, c: int, o: Orientation, size: int)
  {
    if o == Horizontal then c + size <= Side else r + size <= Side
  }

  /** What `placedShips` stores for one ship. */
  datatype Placement = Placement(r: int, c: int, orientation: Orientation, size: nat, name: string)

  predicate Covers(p: Placement, a: int, b: int)
  {
    InFootprint(p.r, p.c, p.orientation, p.size, a, b)
  }

  /** The record of ship `k` placed at `(r, c)`. */
  function PlacementOf(k: ShipKind, r: int, c: int, o: Orientation): Placement
  {
    Placement(r, c, o, Size(k), Name(k))
  }

  /**
    * The grid and the placed ships agree: each placed ship lies inside the
    * grid, and a cell holds ship `k` exactly when `k` is placed over it.
    */
  ghost predicate Consistent(g: Grid, placed: map<ShipKind, Placement>)
  {
    IsGrid(g) &&
    (forall k :: k in placed ==>
       placed[k] == PlacementOf(k, placed[k].r, placed[k].c, placed[k].orientation) &&
       InGrid(placed[k].r, placed[k].c) && Fits(placed[k].r, placed[k].c, placed[k].orientation, Size(k))) &&
    (forall a, b, k :: InGrid(a, b) ==> (g[a][b] == Some(k) <==> k in placed && Covers(placed[k], a, b)))
  }

  /** Two placed ships never share a cell. */
  lemma NoOverlap(g: Grid, placed: map<ShipKind, Placement>, k1: ShipKind, k2: ShipKind, a: int, b: int)
    requires Consistent(g, placed) && InGrid(a, b)
    requires k1 in placed && k2 in placed && Covers(placed[k1], a, b) && Covers(placed[k2], a, b)
    ensures k1 == k2
  {
    assert g[a][b] == Some(k1);
  }

  /** A placed ship covers exactly `size` cells, all inside the grid. */
  lemma FootprintInGrid(g: Grid, placed: map<ShipKind, Placement>, k: ShipKind, i: int)
    requires Consistent(g, placed) && k in placed && 0 <= i < Size(k)
    ensures var p := placed[k];
              var cell := FootprintCell(p.r, p.c, p.orientation, i);
              InGrid(cell.0, cell.1) && g[cell.0][cell.1] == Some(k)
  {
  }

  /**
    * Whether ship `k` may be put at `(r, c)`: it fits, and every cell it
    * would cover is empty or already holds `k` itself (cells that are
    * cleared first when the ship is moved).
    */
  ghost predicate CanMove(g: Grid, k: ShipKind, r: int, c: int, o: Orientation)
    requires IsGrid(g) && InGrid(r, c)
  {
    Fits(r, c, o, Size(k)) &&
    forall a, b :: InGrid(a, b) && InFootprint(r, c, o, Size(k), a, b) ==> g[a][b] == None || g[a][b] == Some(k)
  }

  /**
    * `canPlaceShip`: the ship fits, and each of the `size` cells from
    * `(r, c)` along the orientation is empty.
    */
  method CanPlaceShip(r: int, c: int, size: nat, o: Orientation, g: Grid) returns (ok: bool)
    requires IsGrid(g) && InGrid(r, c)
    ensures ok <==> Fits(r, c, o, size) &&
                    forall a, b :: InGrid(a, b) && InFootprint(r, c, o, size, a, b) ==> g[a][b] == None
  {
    if !Fits(r, c, o, size) {
      return false;
    }
    var i := 0;
    while i < size
      invariant 0 <= i <= size
      invariant forall a, b :: InGrid(a, b) && InFootprint(r, c, o, i, a, b) ==> g[a][b] == None
    {
      var cell := FootprintCell(r, c, o, i);
      if g[cell.0][cell.1] != None {
        return false;
      }
      i := i + 1;
    }
    return true;
  }

  /** The loop of `placeShip` that sets the cells of the ship being moved back to `null`. */
  method ClearShip(g: Grid, p: Placement) returns (t: Grid)
    requires IsGrid(g) && InGrid(p.r, p.c) && Fits(p.r, p.c, p.orientation, p.size)
    ensures IsGrid(t)
    ensures forall a, b :: InGrid(a, b) ==> t[a][b] == if Covers(p, a, b) then None else g[a][b]
  {
    t := g;
    var i := 0;
    while i < p.size
      invariant 0 <= i <= p.size
      invariant IsGrid(t)
      invariant forall a, b :: InGrid(a, b) ==>
                  t[a][b] == if InFootprint(p.r, p.c, p.orientation, i, a, b) then None else g[a][b]
    {
      var cell := FootprintCell(p.r, p.c, p.orientation, i);
      t := t[cell.0 := t[cell.0][cell.1 := None]];
      i := i + 1;
    }
  }

  /** The loop of `placeShip` that writes ship `k`'s id on its cells from `(r, c)`. */
  method StampShip(g: Grid, k: ShipKind, r: int, c: int, o: Orientation) returns (t: Grid)
    requires IsGrid(g) && InGrid(r, c) && Fits(r, c, o, Size(k))
    ensures IsGrid(t)
    ensures forall a, b :: InGrid(a, b) ==> t[a][b] == if InFootprint(r, c, o, Size(k), a, b) then Some(k) else g[a][b]
  {
    t := g;
    var i := 0;
    while i < Size(k)
      invariant 0 <= i <= Size(k)
      invariant IsGrid(t)
      invariant forall a, b :: InGrid(a, b) ==>
                  t[a][b] == if InFootprint(r, c, o, i, a, b) then Some(k) else g[a][b]
    {
      var cell := FootprintCell(r, c, o, i);
      t := t[cell.0 := t[cell.0][cell.1 := Some(k)]];
      i := i + 1;
    }
  }

  /** The inner loop of `handleConfirm`: a ship's cells from its start along its orientation. */
  method Coords(p: Placement) returns (coords: seq<(int, int)>)
    ensures coords == Footprint(p)
  {
    coords := [];
    var i := 0;
    while i < p.size
      invariant 0 <= i <= p.size
      invariant coords == Footprint(p)[..i]
    {
      coords := coords + [FootprintCell(p.r, p.c, p.orientation, i)];
      i := i + 1;
    }
  }

  /** `Object.values(placedShips)` entry handed to the caller on confirm. */
  datatype DeployedShip = DeployedShip(name: string, size: nat, coords: seq<(int, int)>)

  class Deployment {
    var board: Grid
    var placed: map<ShipKind, Placement>
    /** The keys of `placed` in insertion order, the order of `Object.values`. */
    var order: seq<ShipKind>
    var selected: Option<ShipKind>
    var orientation: Orientation

    ghost predicate Valid()
      reads this
    {
      Bookkept(board, placed, order)
    }

    /** An empty grid, nothing placed or selected, horizontal. */
    constructor()
      ensures Valid()
      ensures placed == map[] && order == [] && selected == None && orientation == Horizontal
      ensures forall a, b :: InGrid(a, b) ==> board[a][b] == None
    {
      board := seq(Side, _ => seq(Side, _ => None));
      placed := map[];
      order := [];
      selected := None;
      orientation := Horizontal;
    }

    /** A tray button. */
    method SelectShip(k: ShipKind)
      requires Valid()
      modifies this
      ensures Valid()
      ensures selected == Some(k)
      ensures board == old(board) && placed == old(placed) && order == old(order) && orientation == old(orientation)
    {
      selected := Some(k);
    }

    /** The rotate button. */
    method ToggleOrientation()
      requires Valid()
      modifies this
      ensures Valid()
      ensures orientation == Toggle(old(orientation))
      ensures board == old(board) && placed == old(placed) && order == old(order) && selected == old(selected)
    {
      orientation := if orientation == Horizontal then Vertical else Horizontal;
    }

    /** `allPlaced`: one entry per ship of the tray. */
    function AllPlaced(): (r: bool)
      requires Valid()
      reads this
      ensures r <==> forall k: ShipKind :: k in placed
    {
      AllKindsCount(placed.Keys);
      |placed.Keys| == |Ships|
    }

    /**
      * A click on grid cell `(r, c)`: with a ship selected, lift it off the
      * grid if it was placed, and put it at `(r, c)` in the current
      * orientation when it fits on empty cells; otherwise nothing changes.
      */
    method PlaceShip(r: int, c: int)
      requires Valid() && InGrid(r, c)
      modifies this
      ensures Valid()
      ensures selected == old(selected) && orientation == old(orientation)
      ensures old(selected).None? || !CanMove(old(board), old(selected).value, r, c, orientation) ==>
                board == old(board) && placed == old(placed) && order == old(order)
      ensures old(selected).Some? && CanMove(old(board), old(selected).value, r, c, orientation) ==>
                var k := old(selected).value;
                placed == old(placed)[k := PlacementOf(k, r, c, orientation)] &&
                order == if k in old(placed) then old(order) else old(order) + [k]
    {
      if selected.None? {
        return;
      }
      board, placed, order := MoveShip(board, placed, order, selected.value, r, c, orientation);
    }

    /**
      * `handleConfirm`: every placed ship, in the order it was first placed,
      * with its name, its size and its cells from `(r, c)` along its
      * orientation.
      */
    method Confirm() returns (fleet: seq<DeployedShip>)
      requires Valid()
      ensures |fleet| == |order|
      ensures forall i :: 0 <= i < |fleet| ==>
                fleet[i].name == Name(order[i]) && fleet[i].size == Size(order[i]) && |fleet[i].coords| == Size(order[i])
      ensures forall i :: 0 <= i < |fleet| ==> order[i] in placed && fleet[i].coords == Footprint(placed[order[i]])
      ensures forall i, a, b :: 0 <= i < |fleet| && InGrid(a, b) ==>
                ((a, b) in fleet[i].coords <==> board[a][b] == Some(order[i]))
      ensures forall i, j :: 0 <= i < |fleet| && 0 <= j < |fleet[i].coords| ==>
                InGrid(fleet[i].coords[j].0, fleet[i].coords[j].1)
    {
      fleet := DeployAll(placed, order);
      forall i | 0 <= i < |fleet|
        ensures fleet[i].name == Name(order[i]) && fleet[i].size == Size(order[i]) && |fleet[i].coords| == Size(order[i])
      {
        assert order[i] in placed;
      }
      FleetMatchesBoard(board, placed, order, fleet);
    }
  }

  /**
    * The state of the placement screen: grid and placed ships agree, and
    * `order` lists each placed ship once.
    */
  ghost predicate Bookkept(g: Grid, placed: map<ShipKind, Placement>, order: seq<ShipKind>)
  {
    Consistent(g, placed) &&
    (forall i, j :: 0 <= i < j < |order| ==> order[i] != order[j]) &&
    (forall k :: k in order <==> k in placed)
  }

  /**
    * The body of `placeShip` for selected ship `k`: lift it off the grid if
    * it was placed, and put it at `(r, c)` in orientation `o` when it fits
    * on empty cells; otherwise the grid and the placed ships stay as they were.
    */
  method MoveShip(g: Grid, placed: map<ShipKind, Placement>, order: seq<ShipKind>,
                  k: ShipKind, r: int, c: int, o: Orientation)
    returns (g': Grid, placed': map<ShipKind, Placement>, order': seq<ShipKind>)
    requires Bookkept(g, placed, order) && InGrid(r, c)
    ensures Bookkept(g', placed', order')
    ensures !CanMove(g, k, r, c, o) ==> g' == g && placed' == placed && order' == order
    ensures CanMove(g, k, r, c, o) ==>
              placed' == placed[k := PlacementOf(k, r, c, o)] &&
              order' == if k in placed then order else order + [k]
  {
    g', placed', order' := g, placed, order;
    var cleared := g;
    if k in placed {
      cleared := ClearShip(g, placed[k]);
      ClearRemovesShip(g, placed, k, cleared);
    } else {
      NothingToClear(g, placed, k);
    }
    var ok := CanPlaceShip(r, c, Size(k), o, cleared);
    CanPlaceOnCleared(g, k, r, c, o, cleared);
    if !ok {
      return;
    }
    var stamped := StampShip(cleared, k, r, c, o);
    var p := PlacementOf(k, r, c, o);
    PlaceKeepsConsistent(g, placed, k, p, cleared, stamped);
    g' := stamped;
    if k !in placed {
      order' := order + [k];
      AppendKeepsDistinct(order, k);
    }
    placed' := placed[k := p];
  }

  lemma AppendKeepsDistinct(order: seq<ShipKind>, k: ShipKind)
    requires (forall i, j :: 0 <= i < j < |order| ==> order[i] != order[j]) && k !in order
    ensures forall i, j :: 0 <= i < j < |order + [k]| ==> (order + [k])[i] != (order + [k])[j]
  {
  }

  /** The loops of `handleConfirm`: each placed ship in order with its name, size and cells. */
  method DeployAll(placed: map<ShipKind, Placement>, order: seq<ShipKind>) returns (fleet: seq<DeployedShip>)
    requires forall k :: k in order ==> k in placed
    ensures |fleet| == |order|
    ensures forall i :: 0 <= i < |order| ==>
              var p := placed[order[i]];
              fleet[i] == DeployedShip(p.name, p.size, Footprint(p))
  {
    fleet := [];
    var n := 0;
    while n < |order|
      invariant 0 <= n <= |order| && |fleet| == n
      invariant forall i :: 0 <= i < n ==>
                  var p := placed[order[i]];
                  fleet[i] == DeployedShip(p.name, p.size, Footprint(p))
    {
      var p := placed[order[n]];
      var coords := Coords(p);
      fleet := fleet + [DeployedShip(p.name, p.size, coords)];
      n := n + 1;
    }
  }

  /**
    * The confirmed fleet, each ship's cells being the footprint of its
    * placement, matches the grid: a ship's cells are exactly the cells
    * holding it, and all lie in the grid.
    */
  lemma FleetMatchesBoard(g: Grid, placed: map<ShipKind, Placement>, order: seq<ShipKind>, fleet: seq<DeployedShip>)
    requires Bookkept(g, placed, order) && |fleet| == |order|
    requires forall i :: 0 <= i < |fleet| ==> fleet[i].coords == Footprint(placed[order[i]])
    ensures forall i, a, b :: 0 <= i < |fleet| && InGrid(a, b) ==>
              ((a, b) in fleet[i].coords <==> g[a][b] == Some(order[i]))
    ensures forall i, j :: 0 <= i < |fleet| && 0 <= j < |fleet[i].coords| ==>
              InGrid(fleet[i].coords[j].0, fleet[i].coords[j].1)
  {
    forall i, a, b | 0 <= i < |fleet| && InGrid(a, b)
      ensures (a, b) in fleet[i].coords <==> g[a][b] == Some(order[i])
    {
      FootprintMembers(placed[order[i]], a, b);
    }
    forall i, j | 0 <= i < |fleet| && 0 <= j < |fleet[i].coords|
      ensures InGrid(fleet[i].coords[j].0, fleet[i].coords[j].1)
    {
      FootprintInGrid(g, placed, order[i], j);
    }
  }

  /** The cells of a placement, from its start along its orientation. */
  function Footprint(p: Placement): (cells: seq<(int, int)>)
    ensures |cells| == p.size
    ensures forall i :: 0 <= i < p.size ==> cells[i] == FootprintCell(p.r, p.c, p.orientation, i)
  {
    seq(p.size, i requires i >= 0 => FootprintCell(p.r, p.c, p.orientation, i))
  }

  lemma FootprintMembers(p: Placement, a: int, b: int)
    ensures (a, b) in Footprint(p) <==> Covers(p, a, b)
  {
    if Covers(p, a, b) {
      var i := if p.orientation == Horizontal then b - p.c else a - p.r;
      assert Footprint(p)[i] == (a, b);
    }
  }

  /** A set of ship kinds has at most five members, and five only when it holds them all. */
  lemma AllKindsCount(s: set<ShipKind>)
    ensures |s| <= |Ships|
    ensures |s| == |Ships| <==> forall k: ShipKind :: k in s
  {
    var all := {Carrier, Battleship, Cruiser, Submarine, Destroyer};
    assert |all| == 5;
    forall k: ShipKind
      ensures k in all
    {
      match k
      case Carrier =>
      case Battleship =>
      case Cruiser =>
      case Submarine =>
      case Destroyer =>
    }
    assert s <= all;
    assert |all| == |s| + |all - s|;
    if |s| == |Ships| {
      assert all - s == {};
      forall k: ShipKind ensures k in s {
        assert k in all;
      }
    }
    if forall k: ShipKind :: k in s {
      assert all <= s;
    }
  }

  /** `t` is grid `g` with the cells of ship `k` emptied. */
  ghost predicate WithoutShip(g: Grid, k: ShipKind, t: Grid)
    requires IsGrid(g)
  {
    IsGrid(t) && forall a, b :: InGrid(a, b) ==> t[a][b] == if g[a][b] == Some(k) then None else g[a][b]
  }

  /** Clearing a placed ship's footprint empties exactly the cells holding that ship. */
  lemma ClearRemovesShip(g: Grid, placed: map<ShipKind, Placement>, k: ShipKind, t: Grid)
    requires Consistent(g, placed) && k in placed && IsGrid(t)
    requires forall a, b :: InGrid(a, b) ==> t[a][b] == if Covers(placed[k], a, b) then None else g[a][b]
    ensures WithoutShip(g, k, t)
  {
  }

  /** A ship that is not placed has no cell to clear. */
  lemma NothingToClear(g: Grid, placed: map<ShipKind, Placement>, k: ShipKind)
    requires Consistent(g, placed) && k !in placed
    ensures WithoutShip(g, k, g)
  {
  }

  /**
    * Checking the cleared grid for empty cells is checking the original
    * grid for cells that are empty or hold the ship being moved.
    */
  lemma CanPlaceOnCleared(g: Grid, k: ShipKind, r: int, c: int, o: Orientation, t: Grid)
    requires IsGrid(g) && InGrid(r, c) && WithoutShip(g, k, t)
    ensures (Fits(r, c, o, Size(k)) &&
             forall a, b :: InGrid(a, b) && InFootprint(r, c, o, Size(k), a, b) ==> t[a][b] == None)
            <==> CanMove(g, k, r, c, o)
  {
  }

  /**
    * Clearing the moved ship, then writing it where it may move, keeps the
    * grid and the placed ships in agreement.
    */
  lemma PlaceKeepsConsistent(g: Grid, placed: map<ShipKind, Placement>, k: ShipKind, p: Placement,
                             cleared: Grid, stamped: Grid)
    requires Consistent(g, placed) && WithoutShip(g, k, cleared) && IsGrid(stamped)
    requires InGrid(p.r, p.c) && p == PlacementOf(k, p.r, p.c, p.orientation)
    requires CanMove(g, k, p.r, p.c, p.orientation)
    requires forall a, b :: InGrid(a, b) ==> stamped[a][b] == if Covers(p, a, b) then Some(k) else cleared[a][b]
    ensures Consistent(stamped, placed[k := p])
  {
    var placed' := placed[k := p];
    forall a, b, k' | InGrid(a, b)
      ensures stamped[a][b] == Some(k') <==> k' in placed' && Covers(placed'[k'], a, b)
    {
      if k' != k && k' in placed && Covers(placed[k'], a, b) {
        assert g[a][b] == Some(k');
      }
    }
  }
}
