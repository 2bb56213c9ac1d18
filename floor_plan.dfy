/**
 * The floor-plan editor's server side (app/routes/floor_plan_routes.py): the
 * request validators for tables and floor plans, and the spreadsheet import
 * that turns coloured cells into tables.
 *
 * The import reads the used range of the active sheet, collects the green
 * (theme colour 9) cells as table cells and the dark (theme colour 1) cells as
 * floor, splits the table cells into 4-connected groups with a breadth-first
 * flood fill, and makes one table per group from its bounding box.
 *
 * Cells are `Cell(row, col)`; the source's `{'row': r, 'col': c}` records and
 * `(r, c)` tuples are both this datatype.
 */
module FloorPlan {
  import opened Wrappers
  import opened Text

  datatype Cell = Cell(row: int, col: int)

  // ---------------------------------------------------------------------------
  // Cells, groups and what a partition into connected groups is

  /** The neighbours in the order the flood fill visits them: up, down, left, right. */
  function Neighbours(c: Cell): seq<Cell>
  {
    [Cell(c.row - 1, c.col), Cell(c.row + 1, c.col), Cell(c.row, c.col - 1), Cell(c.row, c.col + 1)]
  }

  /** Two cells share an edge. */
  predicate Adjacent(a: Cell, b: Cell)
  {
    (a.row == b.row && (a.col - b.col == 1 || b.col - a.col == 1)) ||
    (a.col == b.col && (a.row - b.row == 1 || b.row - a.row == 1))
  }

  lemma NeighboursAreAdjacent(c: Cell, n: Cell)
    ensures n in Neighbours(c) <==> Adjacent(c, n)
  {
  }

  function Elements(g: seq<Cell>): set<Cell>
  {
    set c | c in g
  }

  predicate Distinct(g: seq<Cell>)
  {
    forall i, j :: 0 <= i < j < |g| ==> g[i] != g[j]
  }

  /** Every cell after the first touches an earlier one, so the group is
      4-connected (the order is a spanning tree of it). */
  predicate Chained(g: seq<Cell>)
  {
    forall i :: 0 < i < |g| ==> TouchesEarlier(g, i)
  }

  predicate TouchesEarlier(g: seq<Cell>, i: nat)
    requires i < |g|
  {
    exists j :: 0 <= j < i && Adjacent(g[j], g[i])
  }

  /** No cell of `all` outside `g` touches a cell of `g`. */
  predicate Closed(g: seq<Cell>, all: set<Cell>)
  {
    forall c, n :: c in g && n in all && Adjacent(c, n) ==> n in g
  }

  /** One group of the flood fill: non-empty, each cell once, connected, and
      maximal among the cells `all`. */
  predicate Component(g: seq<Cell>, all: set<Cell>)
  {
    g != [] && Distinct(g) && Chained(g) && Closed(g, all)
  }

  /** The cells of all groups together. */
  function Covered(groups: seq<seq<Cell>>): set<Cell>
  {
    if groups == [] then {} else Covered(groups[..|groups| - 1]) + Elements(groups[|groups| - 1])
  }

  predicate Disjoint(groups: seq<seq<Cell>>)
  {
    forall i, j :: 0 <= i < j < |groups| ==> Elements(groups[i]) !! Elements(groups[j])
  }

  /** `groups` splits `all` into its connected components. */
  predicate Partition(groups: seq<seq<Cell>>, all: set<Cell>)
  {
    && Covered(groups) == all
    && Disjoint(groups)
    && (forall i :: 0 <= i < |groups| ==> Component(groups[i], all))
  }

  /** The number of cells in all groups, counted with repetition. */
  function TotalSize(groups: seq<seq<Cell>>): nat
  {
    if groups == [] then 0 else TotalSize(groups[..|groups| - 1]) + |groups[|groups| - 1]|
  }

  lemma {:induction false} CoveredMember(groups: seq<seq<Cell>>, c: Cell)
    ensures c in Covered(groups) <==> exists i :: 0 <= i < |groups| && c in groups[i]
  {
    if groups != [] {
      var init := groups[..|groups| - 1];
      CoveredMember(init, c);
      if c in Covered(init) {
        var i :| 0 <= i < |init| && c in init[i];
        assert groups[i] == init[i];
      }
      if exists i :: 0 <= i < |groups| && c in groups[i] {
        var i :| 0 <= i < |groups| && c in groups[i];
        if i < |init| { assert init[i] == groups[i]; }
      }
    }
  }

  lemma CoveredAppend(groups: seq<seq<Cell>>, g: seq<Cell>)
    ensures Covered(groups + [g]) == Covered(groups) + Elements(g)
    ensures TotalSize(groups + [g]) == TotalSize(groups) + |g|
  {
    assert (groups + [g])[..|groups|] == groups;
  }

  lemma {:induction false} DistinctCard(g: seq<Cell>)
    requires Distinct(g)
    ensures |Elements(g)| == |g|
  {
    if g != [] {
      var init := g[..|g| - 1];
      assert Elements(g) == Elements(init) + {g[|g| - 1]};
      assert g[|g| - 1] !in Elements(init);
      DistinctCard(init);
    }
  }

  /** Disjoint groups without repeated cells hold as many cells as their union
      has, and at least one per non-empty group. */
  lemma {:induction false} PartitionSize(groups: seq<seq<Cell>>)
    requires Disjoint(groups)
    requires forall i :: 0 <= i < |groups| ==> groups[i] != [] && Distinct(groups[i])
    ensures |Covered(groups)| == TotalSize(groups)
    ensures |groups| <= TotalSize(groups)
  {
    if groups != [] {
      var init := groups[..|groups| - 1];
      var last := groups[|groups| - 1];
      assert init + [last] == groups;
      CoveredAppend(init, last);
      PartitionSize(init);
      DistinctCard(last);
      forall c | c in Covered(init) ensures c !in Elements(last) {
        CoveredMember(init, c);
        var i :| 0 <= i < |init| && c in init[i];
        assert init[i] == groups[i];
      }
      assert Covered(init) * Elements(last) == {};
    }
  }

  /** Cells in different groups of a partition never touch. */
  lemma NoTouchAcrossGroups(groups: seq<seq<Cell>>, all: set<Cell>, i: nat, j: nat, a: Cell, b: Cell)
    requires Partition(groups, all)
    requires i < |groups| && j < |groups| && i != j
    requires a in groups[i] && b in groups[j]
    ensures !Adjacent(a, b)
  {
    assert b in all by { CoveredMember(groups, b); }
    assert b !in groups[i] by {
      assert b in Elements(groups[j]);
      if i < j { assert Elements(groups[i]) !! Elements(groups[j]); }
      else { assert Elements(groups[j]) !! Elements(groups[i]); }
    }
    assert Component(groups[i], all);
  }

  // ---------------------------------------------------------------------------
  // find_connected_cells

  /** The neighbours of a cell that are still unvisited, in visiting order;
      each is taken out of the unvisited set as it is found. */
  function Unvisited(ns: seq<Cell>, rest: set<Cell>): (r: seq<Cell>)
    ensures Elements(r) == Elements(ns) * rest
    ensures Distinct(r)
  {
    if ns == [] then []
    else if ns[0] in rest then
      var tail := Unvisited(ns[1..], rest - {ns[0]});
      assert Elements(ns) == {ns[0]} + Elements(ns[1..]);
      assert Elements([ns[0]] + tail) == {ns[0]} + Elements(tail);
      assert ns[0] !in Elements(tail);
      [ns[0]] + tail
    else
      assert Elements(ns) == {ns[0]} + Elements(ns[1..]);
      Unvisited(ns[1..], rest)
  }

  /** The inner loop of the flood fill over the neighbours `ns` of the
      current cell: each one still in `rest` leaves it and joins the group and
      the queue. */
  method Visit(ns: seq<Cell>, rest: set<Cell>, group: seq<Cell>, queue: seq<Cell>)
    returns (rest': set<Cell>, group': seq<Cell>, queue': seq<Cell>)
    ensures group' == group + Unvisited(ns, rest)
    ensures queue' == queue + Unvisited(ns, rest)
    ensures rest' == rest - Elements(ns)
  {
    rest', group', queue' := rest, group, queue;
    ghost var added := [];
    var i := 0;
    while i < |ns|
      invariant 0 <= i <= |ns|
      invariant group' == group + added && queue' == queue + added
      invariant added + Unvisited(ns[i..], rest') == Unvisited(ns, rest)
      invariant rest' == rest - Elements(ns[..i])
    {
      var n := ns[i];
      VisitStep(ns, i, rest, rest');
      if n in rest' {
        assert added + Unvisited(ns[i..], rest') == (added + [n]) + Unvisited(ns[i + 1..], rest' - {n});
        rest' := rest' - {n};
        group' := group' + [n];
        queue' := queue' + [n];
        added := added + [n];
      }
      i := i + 1;
    }
    assert ns[..i] == ns;
  }

  /** Every cell leaving the unvisited set is added to the group. */
  lemma {:induction false} UnvisitedCount(ns: seq<Cell>, rest: set<Cell>)
    ensures |rest - Elements(ns)| + |Unvisited(ns, rest)| == |rest|
  {
    if ns != [] {
      assert Elements(ns) == {ns[0]} + Elements(ns[1..]);
      if ns[0] in rest {
        UnvisitedCount(ns[1..], rest - {ns[0]});
        assert rest - Elements(ns) == (rest - {ns[0]}) - Elements(ns[1..]);
      } else {
        UnvisitedCount(ns[1..], rest);
        assert rest - Elements(ns) == rest - Elements(ns[1..]);
      }
    }
  }

  lemma VisitStep(ns: seq<Cell>, i: nat, rest: set<Cell>, r: set<Cell>)
    requires i < |ns|
    ensures rest - Elements(ns[..i + 1]) == (rest - Elements(ns[..i])) - {ns[i]}
    ensures Unvisited(ns[i..], r) ==
      if ns[i] in r then [ns[i]] + Unvisited(ns[i + 1..], r - {ns[i]}) else Unvisited(ns[i + 1..], r)
  {
    assert ns[i..] == [ns[i]] + ns[i + 1..];
    assert ns[..i + 1] == ns[..i] + [ns[i]];
    assert Elements(ns[..i + 1]) == Elements(ns[..i]) + {ns[i]};
  }

  /** The flood fill from `start` over the unvisited cells `rest`, the cells
      of earlier groups being `Covered(groups)`. */
  method GrowGroup(ghost all: set<Cell>, ghost groups: seq<seq<Cell>>, rest: set<Cell>, start: Cell)
    returns (group: seq<Cell>, rest': set<Cell>)
    requires start !in rest && rest + {start} <= all
    requires Covered(groups) == all - rest - {start}
    requires forall i :: 0 <= i < |groups| ==> Closed(groups[i], all)
    ensures Growing(rest, start, group, rest', |group|) && Closed(group, all) && Distinct(group)
  {
    rest' := rest;
    group := [start];
    var queue := [start];
    ghost var k: nat := 0;
    assert Growing(rest, start, group, rest', k);
    while queue != []
      invariant Growing(rest, start, group, rest', k)
      invariant queue == group[k..]
      decreases |rest'|, |queue|
    {
      var current := queue[0];
      queue := queue[1..];
      assert current == group[k] && queue == group[k + 1..];
      ghost var group0, rest0 := group, rest';
      rest', group, queue := Visit(Neighbours(current), rest', group, queue);
      GrowStep(rest, start, group0, rest0, k, group, rest');
      SliceOfAppend(group0, Unvisited(Neighbours(current), rest0), k + 1);
      k := k + 1;
    }
    ClosedAtEnd(all, groups, rest, start, group, rest');
  }

  lemma SliceOfAppend(g: seq<Cell>, a: seq<Cell>, k: nat)
    requires k <= |g|
    ensures (g + a)[k..] == g[k..] + a
  {
  }

  /** The state of the flood fill from `start` over `rest`: the group `g` so
      far, the cells `r` not yet reached, and the first `k` cells of the group
      already expanded, none of whose neighbours is still unreached. */
  predicate Growing(rest: set<Cell>, start: Cell, g: seq<Cell>, r: set<Cell>, k: nat)
  {
    && r <= rest && |r| + |g| == |rest| + 1
    && Elements(g) == (rest + {start}) - r
    && g != [] && g[0] == start && Chained(g) && k <= |g|
    && forall i, n :: 0 <= i < k && Adjacent(g[i], n) ==> n !in r
  }

  /** One round of the flood fill's queue loop keeps its invariant. */
  lemma GrowStep(rest: set<Cell>, start: Cell, g: seq<Cell>, r: set<Cell>, k: nat, g': seq<Cell>, r': set<Cell>)
    requires Growing(rest, start, g, r, k) && k < |g|
    requires g' == g + Unvisited(Neighbours(g[k]), r) && r' == r - Elements(Neighbours(g[k]))
    ensures Growing(rest, start, g', r', k + 1)
    ensures |r'| < |r| || (|r'| == |r| && |g'| == |g|)
  {
    var ns := Neighbours(g[k]);
    var a := Unvisited(ns, r);
    UnvisitedCount(ns, r);
    assert Elements(g') == Elements(g) + Elements(a) by { ElementsAppend(g, a); }
    SetStep(rest + {start}, r, Elements(g), Elements(ns), Elements(a), r');
    forall n | n in a ensures Adjacent(g[k], n) {
      assert n in Elements(a);
      NeighboursAreAdjacent(g[k], n);
    }
    ExtendChain(g, a, k);
    ProcessedStep(g, a, r, k);
  }

  lemma ElementsAppend(g: seq<Cell>, a: seq<Cell>)
    ensures Elements(g + a) == Elements(g) + Elements(a)
  {
  }

  lemma SetStep(all: set<Cell>, r: set<Cell>, eg: set<Cell>, ens: set<Cell>, ea: set<Cell>, r': set<Cell>)
    requires r <= all && eg == all - r && ea == ens * r && r' == r - ens
    ensures eg + ea == all - r' && r' <= r
  {
  }

  /** The cell just expanded has no neighbour left unreached. */
  lemma ProcessedStep(g: seq<Cell>, a: seq<Cell>, r: set<Cell>, k: nat)
    requires k < |g|
    requires forall i, n :: 0 <= i < k && Adjacent(g[i], n) ==> n !in r
    ensures forall i, n :: 0 <= i < k + 1 && Adjacent((g + a)[i], n) ==> n !in r - Elements(Neighbours(g[k]))
  {
    forall i, n | 0 <= i < k + 1 && Adjacent((g + a)[i], n) ensures n !in r - Elements(Neighbours(g[k])) {
      assert (g + a)[i] == g[i];
      if i == k { NeighboursAreAdjacent(g[k], n); }
    }
  }

  lemma ExtendChain(g: seq<Cell>, added: seq<Cell>, k: nat)
    requires Chained(g) && k < |g|
    requires forall n :: n in added ==> Adjacent(g[k], n)
    ensures Chained(g + added)
  {
    var h := g + added;
    forall i | 0 < i < |h| ensures TouchesEarlier(h, i) {
      if i < |g| {
        assert TouchesEarlier(g, i);
        var j :| 0 <= j < i && Adjacent(g[j], g[i]);
        assert h[j] == g[j] && h[i] == g[i];
      } else {
        assert h[i] == added[i - |g|] && h[k] == g[k];
        assert 0 <= k < i && Adjacent(h[k], h[i]);
      }
    }
  }

  /** A cell outside the closed groups has no neighbour inside them. */
  lemma OutsideStaysOutside(groups: seq<seq<Cell>>, all: set<Cell>, c: Cell, n: Cell)
    requires forall i :: 0 <= i < |groups| ==> Closed(groups[i], all)
    requires c in all && c !in Covered(groups) && Adjacent(c, n)
    ensures n !in Covered(groups)
  {
    forall i | 0 <= i < |groups| ensures n !in groups[i] {
      assert c !in groups[i] by { CoveredMember(groups, c); }
      assert Closed(groups[i], all) && Adjacent(n, c);
    }
    CoveredMember(groups, n);
  }

  lemma {:induction false} ElementsSize(g: seq<Cell>)
    ensures |Elements(g)| <= |g|
    ensures |Elements(g)| == |g| ==> Distinct(g)
  {
    if g != [] {
      var init, last := g[..|g| - 1], g[|g| - 1];
      assert g == init + [last];
      assert Elements(g) == Elements(init) + {last};
      ElementsSize(init);
      if |Elements(g)| == |g| {
        assert last !in Elements(init);
        forall i, j | 0 <= i < j < |g| ensures g[i] != g[j] {
          if j < |g| - 1 { assert g[i] == init[i] && g[j] == init[j]; }
          else { assert g[i] in Elements(init); }
        }
      }
    }
  }

  lemma ClosedAtEnd(all: set<Cell>, groups: seq<seq<Cell>>, rest: set<Cell>, start: Cell,
                    group: seq<Cell>, rest': set<Cell>)
    requires rest + {start} <= all && start !in rest
    requires Covered(groups) == all - rest - {start}
    requires forall i :: 0 <= i < |groups| ==> Closed(groups[i], all)
    requires Growing(rest, start, group, rest', |group|)
    ensures Closed(group, all) && Distinct(group)
  {
    forall c, n | c in group && n in all && Adjacent(c, n) ensures n in group {
      assert c in Elements(group);
      OutsideStaysOutside(groups, all, c, n);
      assert n in Elements(group);
    }
    assert rest + {start} == ((rest + {start}) - rest') + rest';
    ElementsSize(group);
  }

  /** `find_connected_cells`: the table cells, split into their 4-connected
      groups. The cell the source pops from its set first is any unvisited
      one, so the order of the groups is not fixed. */
  method FindConnectedCells(cells: seq<Cell>) returns (groups: seq<seq<Cell>>)
    ensures cells == [] ==> groups == []
    ensures Partition(groups, Elements(cells))
    ensures TotalSize(groups) == |Elements(cells)|
    ensures |groups| <= |Elements(cells)|
  {
    if cells == [] {
      return [];
    }
    var cellSet := set c | c in cells;
    ghost var all := cellSet;
    groups := [];
    while cellSet != {}
      invariant Splitting(all, groups, cellSet)
      decreases |cellSet|
    {
      var start :| start in cellSet;
      ghost var before := cellSet;
      cellSet := cellSet - {start};
      var group;
      group, cellSet := GrowGroup(all, groups, cellSet, start);
      SplitStep(all, groups, before, start, group, cellSet);
      groups := groups + [group];
    }
    PartitionSize(groups);
  }

  /** The state of `find_connected_cells` between two groups: the groups
      found so far are components of `all` and cover all but the cells
      `rest` still in the set. */
  predicate Splitting(all: set<Cell>, groups: seq<seq<Cell>>, rest: set<Cell>)
  {
    && rest <= all && Covered(groups) == all - rest && Disjoint(groups)
    && forall i :: 0 <= i < |groups| ==> Component(groups[i], all)
  }

  lemma SplitStep(all: set<Cell>, groups: seq<seq<Cell>>, rest: set<Cell>, start: Cell, group: seq<Cell>, rest': set<Cell>)
    requires Splitting(all, groups, rest) && start in rest
    requires Growing(rest - {start}, start, group, rest', |group|) && Closed(group, all) && Distinct(group)
    ensures Splitting(all, groups + [group], rest') && |rest'| < |rest|
  {
    GrownGroup(rest, start, group, rest');
    CoveredAppend(groups, group);
    assert Covered(groups + [group]) == all - rest';
    AppendDisjoint(groups, group, all - rest);
    ComponentsAppend(groups, group, all);
  }

  lemma GrownGroup(rest: set<Cell>, start: Cell, group: seq<Cell>, rest': set<Cell>)
    requires start in rest && Growing(rest - {start}, start, group, rest', |group|)
    ensures rest' <= rest && |rest'| < |rest| && Elements(group) == rest - rest'
  {
    assert (rest - {start}) + {start} == rest;
  }

  lemma ComponentsAppend(groups: seq<seq<Cell>>, g: seq<Cell>, all: set<Cell>)
    requires forall i :: 0 <= i < |groups| ==> Component(groups[i], all)
    requires Component(g, all)
    ensures forall i :: 0 <= i < |groups + [g]| ==> Component((groups + [g])[i], all)
  {
    var h := groups + [g];
    forall i | 0 <= i < |h| ensures Component(h[i], all) {
      if i < |groups| { assert h[i] == groups[i]; }
    }
  }

  lemma AppendDisjoint(groups: seq<seq<Cell>>, g: seq<Cell>, before: set<Cell>)
    requires Disjoint(groups) && Covered(groups) == before && Elements(g) !! before
    ensures Disjoint(groups + [g])
  {
    var h := groups + [g];
    forall i, j | 0 <= i < j < |h| ensures Elements(h[i]) !! Elements(h[j]) {
      if j == |groups| {
        forall c | c in h[i] ensures c in before {
          CoveredMember(groups, c);
        }
      }
    }
  }

  // ---------------------------------------------------------------------------
  // Tables derived from the groups

  /** A parsed table as the import returns it. */
  datatype ParsedTable = ParsedTable(tableId: string, seats: nat, width: int, height: int,
                                     posX: int, posY: int, shape: string)

  function Min(xs: seq<int>): int
    requires xs != []
  {
    if |xs| == 1 then xs[0]
    else var m0 := Min(xs[1..]);
      if xs[0] < m0 then xs[0] else m0
  }

  function Max(xs: seq<int>): int
    requires xs != []
  {
    if |xs| == 1 then xs[0]
    else var m0 := Max(xs[1..]);
      if xs[0] > m0 then xs[0] else m0
  }

  /** The minimum is one of the values and no value is below it. */
  lemma {:induction false} MinIsLeast(xs: seq<int>) returns (k: nat)
    requires xs != []
    ensures k < |xs| && xs[k] == Min(xs)
    ensures forall j :: 0 <= j < |xs| ==> Min(xs) <= xs[j]
  {
    if |xs| == 1 {
      k := 0;
    } else {
      var k0 := MinIsLeast(xs[1..]);
      k := if xs[0] < Min(xs[1..]) then 0 else k0 + 1;
      forall j | 1 <= j < |xs| ensures Min(xs[1..]) <= xs[j] {
        assert xs[j] == xs[1..][j - 1];
      }
    }
  }

  /** The maximum is one of the values and no value is above it. */
  lemma {:induction false} MaxIsGreatest(xs: seq<int>) returns (k: nat)
    requires xs != []
    ensures k < |xs| && xs[k] == Max(xs)
    ensures forall j :: 0 <= j < |xs| ==> xs[j] <= Max(xs)
  {
    if |xs| == 1 {
      k := 0;
    } else {
      var k0 := MaxIsGreatest(xs[1..]);
      k := if xs[0] > Max(xs[1..]) then 0 else k0 + 1;
      forall j | 1 <= j < |xs| ensures xs[j] <= Max(xs[1..]) {
        assert xs[j] == xs[1..][j - 1];
      }
    }
  }

  function Rows(g: seq<Cell>): seq<int> { seq(|g|, i requires 0 <= i < |g| => g[i].row) }

  function Cols(g: seq<Cell>): seq<int> { seq(|g|, i requires 0 <= i < |g| => g[i].col) }

  /** The table made from the `i`-th group (counting from 1): its bounding box
      and one seat per cell. */
  function TableOf(i: nat, g: seq<Cell>): ParsedTable
    requires g != []
  {
    var minR, maxR := Min(Rows(g)), Max(Rows(g));
    var minC, maxC := Min(Cols(g)), Max(Cols(g));
    var width, height := maxC - minC + 1, maxR - minR + 1;
    ParsedTable("T" + NatToString(i), |g|, width, height, minC, minR,
                if width == height then "square" else "rectangle")
  }

  /** The bounding box of the group is the smallest rectangle holding its
      cells: every cell lies in it and each of its four edges holds a cell. */
  lemma TableBox(i: nat, g: seq<Cell>)
    requires g != []
    ensures var t := TableOf(i, g);
      && t.width >= 1 && t.height >= 1 && t.seats == |g|
      && (forall c :: c in g ==> t.posY <= c.row < t.posY + t.height && t.posX <= c.col < t.posX + t.width)
      && (exists c :: c in g && c.row == t.posY)
      && (exists c :: c in g && c.row == t.posY + t.height - 1)
      && (exists c :: c in g && c.col == t.posX)
      && (exists c :: c in g && c.col == t.posX + t.width - 1)
      && (t.shape == "square" <==> t.width == t.height)
  {
    var t := TableOf(i, g);
    var ka := MinIsLeast(Rows(g));
    var kb := MaxIsGreatest(Rows(g));
    var kc := MinIsLeast(Cols(g));
    var kd := MaxIsGreatest(Cols(g));
    forall c | c in g ensures t.posY <= c.row < t.posY + t.height && t.posX <= c.col < t.posX + t.width {
      var k :| 0 <= k < |g| && g[k] == c;
      assert Rows(g)[k] == c.row && Cols(g)[k] == c.col;
    }
    assert g[ka] in g && g[kb] in g && g[kc] in g && g[kd] in g;
  }

  /** The cells of row `r` from column `c0`, `w` columns wide. */
  function RowOfBox(r: int, c0: int, w: nat): set<Cell>
  {
    if w == 0 then {} else RowOfBox(r, c0, w - 1) + {Cell(r, c0 + w - 1)}
  }

  /** The cells of the rectangle with corner `(r0, c0)`, `h` rows by `w` columns. */
  function Box(r0: int, c0: int, h: nat, w: nat): set<Cell>
  {
    if h == 0 then {} else Box(r0, c0, h - 1, w) + RowOfBox(r0 + h - 1, c0, w)
  }

  lemma {:induction false} RowOfBoxMember(r: int, c0: int, w: nat, c: Cell)
    ensures c in RowOfBox(r, c0, w) <==> c.row == r && c0 <= c.col < c0 + w
  {
    if w > 0 { RowOfBoxMember(r, c0, w - 1, c); }
  }

  lemma {:induction false} BoxMember(r0: int, c0: int, h: nat, w: nat, c: Cell)
    ensures c in Box(r0, c0, h, w) <==> r0 <= c.row < r0 + h && c0 <= c.col < c0 + w
  {
    if h > 0 {
      BoxMember(r0, c0, h - 1, w, c);
      RowOfBoxMember(r0 + h - 1, c0, w, c);
    }
  }

  lemma {:induction false} RowOfBoxSize(r: int, c0: int, w: nat)
    ensures |RowOfBox(r, c0, w)| == w
  {
    if w > 0 {
      RowOfBoxSize(r, c0, w - 1);
      RowOfBoxMember(r, c0, w - 1, Cell(r, c0 + w - 1));
    }
  }

  /** Adding a row of `w` cells to the box adds `w` cells. */
  lemma BoxGrows(r0: int, c0: int, h: nat, w: nat)
    requires h > 0
    ensures |Box(r0, c0, h, w)| == |Box(r0, c0, h - 1, w)| + w
  {
    var top, bottom := Box(r0, c0, h - 1, w), RowOfBox(r0 + h - 1, c0, w);
    assert Box(r0, c0, h, w) == top + bottom;
    forall c | c in bottom ensures c !in top {
      RowOfBoxMember(r0 + h - 1, c0, w, c);
      BoxMember(r0, c0, h - 1, w, c);
    }
    RowOfBoxSize(r0 + h - 1, c0, w);
    DisjointUnionSize(top, bottom);
  }

  lemma DisjointUnionSize(a: set<Cell>, b: set<Cell>)
    requires forall c :: c in b ==> c !in a
    ensures |a + b| == |a| + |b|
  {
    assert a * b == {};
  }

  lemma {:induction false} BoxSize(r0: int, c0: int, h: nat, w: nat)
    ensures |Box(r0, c0, h, w)| == h * w
  {
    if h > 0 {
      BoxGrows(r0, c0, h, w);
      BoxSize(r0, c0, h - 1, w);
      assert (h - 1) * w + w == h * w;
    }
  }

  lemma {:induction false} SubsetSize(a: set<Cell>, b: set<Cell>)
    requires a <= b
    ensures |a| <= |b|
    decreases |a|
  {
    if a != {} {
      var x :| x in a;
      SubsetSize(a - {x}, b - {x});
    }
  }

  /** A table never has more seats than its bounding box has cells. */
  lemma SeatsWithinBox(i: nat, g: seq<Cell>)
    requires g != [] && Distinct(g)
    ensures TableOf(i, g).seats <= TableOf(i, g).width * TableOf(i, g).height
  {
    var t := TableOf(i, g);
    TableBox(i, g);
    var box := Box(t.posY, t.posX, t.height, t.width);
    assert Elements(g) <= box by {
      forall c | c in Elements(g) ensures c in box {
        BoxMember(t.posY, t.posX, t.height, t.width, c);
      }
    }
    SubsetSize(Elements(g), box);
    BoxSize(t.posY, t.posX, t.height, t.width);
    DistinctCard(g);
  }

  /** The tables are named T1, T2, ... so no two share a name. */
  lemma TableIdsDistinct(i: nat, j: nat, g: seq<Cell>, h: seq<Cell>)
    requires g != [] && h != [] && i != j
    ensures TableOf(i, g).tableId != TableOf(j, h).tableId
  {
    if TableOf(i, g).tableId == TableOf(j, h).tableId {
      assert NatToString(i) == TableOf(i, g).tableId[1..];
      NatToStringValue(i);
      NatToStringValue(j);
    }
  }

  /** The loop over `enumerate(tables, 1)`: the `i`-th table (from 0) is
      made from the `i`-th group and numbered `i + 1`. */
  method ParseTables(groups: seq<seq<Cell>>) returns (tables: seq<ParsedTable>)
    requires forall i :: 0 <= i < |groups| ==> groups[i] != []
    ensures |tables| == |groups|
    ensures forall i :: 0 <= i < |groups| ==> tables[i] == TableOf(i + 1, groups[i])
  {
    tables := [];
    for i := 0 to |groups|
      invariant |tables| == i
      invariant forall k :: 0 <= k < i ==> tables[k] == TableOf(k + 1, groups[k])
    {
      tables := tables + [TableOf(i + 1, groups[i])];
    }
  }

  /** `tables` holds one table per group, in order, numbered from 1. */
  predicate NumberedTables(tables: seq<ParsedTable>, groups: seq<seq<Cell>>)
  {
    && |tables| == |groups|
    && forall i :: 0 <= i < |groups| ==> groups[i] != [] && tables[i] == TableOf(i + 1, groups[i])
  }

  function SeatTotal(tables: seq<ParsedTable>): nat
  {
    if tables == [] then 0 else SeatTotal(tables[..|tables| - 1]) + tables[|tables| - 1].seats
  }

  /** The tables made from the groups seat one guest per cell. */
  lemma {:induction false} SeatTotalOfGroups(groups: seq<seq<Cell>>, tables: seq<ParsedTable>)
    requires |tables| == |groups|
    requires forall i :: 0 <= i < |groups| ==> groups[i] != [] && tables[i] == TableOf(i + 1, groups[i])
    ensures SeatTotal(tables) == TotalSize(groups)
  {
    if groups != [] {
      SeatTotalOfGroups(groups[..|groups| - 1], tables[..|tables| - 1]);
    }
  }

  // ---------------------------------------------------------------------------
  // Reading the spreadsheet

  /** A cell's fill: none, a theme colour by number, or any other colour kind. */
  datatype Fill = NoFill | ThemeColor(theme: int) | OtherColor

  /** The active sheet: its used range (1-based, inclusive) and the fills. */
  datatype Sheet = Sheet(minRow: int, minCol: int, maxRow: int, maxCol: int, fills: map<Cell, Fill>)
  {
    predicate WellFormed() { 1 <= minRow <= maxRow && 1 <= minCol <= maxCol }

    function FillAt(r: int, c: int): Fill { if Cell(r, c) in fills then fills[Cell(r, c)] else NoFill }
  }

  const TableTheme := 9
  const FloorTheme := 1

  /** The cells of row `r` (relative) whose fill is theme colour `theme`, in
      column order, among the first `n` columns. */
  function ScanRow(sheet: Sheet, theme: int, r: int, n: nat): seq<Cell>
  {
    if n == 0 then []
    else
      var hit := sheet.FillAt(sheet.minRow + r, sheet.minCol + n - 1) == ThemeColor(theme);
      ScanRow(sheet, theme, r, n - 1) + (if hit then [Cell(r, n - 1)] else [])
  }

  function Height(sheet: Sheet): nat requires sheet.WellFormed() { sheet.maxRow - sheet.minRow + 1 }

  function Width(sheet: Sheet): nat requires sheet.WellFormed() { sheet.maxCol - sheet.minCol + 1 }

  /** The same over the first `n` rows of the used range, row by row. */
  function Scan(sheet: Sheet, theme: int, n: nat): seq<Cell>
    requires sheet.WellFormed()
  {
    if n == 0 then []
    else Scan(sheet, theme, n - 1) + ScanRow(sheet, theme, n - 1, Width(sheet))
  }

  lemma {:induction false} ScanRowMember(sheet: Sheet, theme: int, r: int, n: nat, c: Cell)
    ensures c in ScanRow(sheet, theme, r, n) <==>
      c.row == r && 0 <= c.col < n && sheet.FillAt(sheet.minRow + r, sheet.minCol + c.col) == ThemeColor(theme)
  {
    if n > 0 { ScanRowMember(sheet, theme, r, n - 1, c); }
  }

  /** A cell is listed exactly when it lies in the used range and carries the
      theme colour; its coordinates are relative to the range's first row
      and column. */
  lemma {:induction false} ScanMember(sheet: Sheet, theme: int, n: nat, c: Cell)
    requires sheet.WellFormed()
    ensures c in Scan(sheet, theme, n) <==>
      && 0 <= c.row < n && 0 <= c.col < Width(sheet)
      && sheet.FillAt(sheet.minRow + c.row, sheet.minCol + c.col) == ThemeColor(theme)
  {
    if n > 0 {
      ScanMember(sheet, theme, n - 1, c);
      ScanRowMember(sheet, theme, n - 1, Width(sheet), c);
    }
  }

  /** Table cells and floor cells never overlap. */
  lemma TableAndFloorApart(sheet: Sheet, c: Cell)
    requires sheet.WellFormed()
    ensures !(c in Scan(sheet, TableTheme, Height(sheet)) && c in Scan(sheet, FloorTheme, Height(sheet)))
  {
    ScanMember(sheet, TableTheme, Height(sheet), c);
    ScanMember(sheet, FloorTheme, Height(sheet), c);
  }

  /** The double loop over the used range sorting cells into table and floor. */
  method ClassifyCells(sheet: Sheet) returns (green: seq<Cell>, dark: seq<Cell>)
    requires sheet.WellFormed()
    ensures green == Scan(sheet, TableTheme, Height(sheet))
    ensures dark == Scan(sheet, FloorTheme, Height(sheet))
  {
    green, dark := [], [];
    for row := sheet.minRow to sheet.maxRow + 1
      invariant green == Scan(sheet, TableTheme, row - sheet.minRow)
      invariant dark == Scan(sheet, FloorTheme, row - sheet.minRow)
    {
      ghost var g0, d0 := green, dark;
      for col := sheet.minCol to sheet.maxCol + 1
        invariant green == g0 + ScanRow(sheet, TableTheme, row - sheet.minRow, col - sheet.minCol)
        invariant dark == d0 + ScanRow(sheet, FloorTheme, row - sheet.minRow, col - sheet.minCol)
      {
        var fill := sheet.FillAt(row, col);
        var cell := Cell(row - sheet.minRow, col - sheet.minCol);
        if fill.ThemeColor? {
          if fill.theme == TableTheme {
            green := green + [cell];
          } else if fill.theme == FloorTheme {
            dark := dark + [cell];
          }
        }
      }
    }
  }

  // ---------------------------------------------------------------------------
  // The upload route

  datatype Upload =
    | NoFile                 // 400, 'No file uploaded'
    | InvalidFileType        // 400
    | EmptySpreadsheet       // 400
    | Layout(gridRows: int, gridCols: int, tables: seq<ParsedTable>, floorCells: seq<Cell>)
    | ReadFailed             // 500: the workbook could not be read

  /** `upload_excel_layout` after the restaurant lookup. The uploaded file is
      its name and the active sheet openpyxl reads from it (`None` when the
      workbook cannot be loaded). A used range of just A1 counts as empty. */
  method UploadExcelLayout(filename: Option<string>, sheet: Option<Sheet>) returns (r: Upload)
    requires sheet.Some? ==> sheet.value.WellFormed()
    ensures r.NoFile? <==> filename.None?
    ensures r.InvalidFileType? <==> filename.Some? && !EndsWith(filename.value, ".xlsx") && !EndsWith(filename.value, ".xls")
    ensures r.ReadFailed? <==> filename.Some? && !r.InvalidFileType? && sheet.None?
    ensures r.EmptySpreadsheet? <==>
      (&& filename.Some? && !r.InvalidFileType? && sheet.Some?
       && sheet.value.minRow == sheet.value.maxRow == 1 && sheet.value.minCol == sheet.value.maxCol == 1)
    ensures r.Layout? ==>
      && r.gridRows == Height(sheet.value) && r.gridCols == Width(sheet.value)
      && r.floorCells == Scan(sheet.value, FloorTheme, Height(sheet.value))
      && SeatTotal(r.tables) == |Elements(Scan(sheet.value, TableTheme, Height(sheet.value)))|
      && |r.tables| <= SeatTotal(r.tables)
      && (forall t :: t in r.tables ==> t.seats >= 1 && t.posX >= 0 && t.posY >= 0)
      && (exists groups :: Partition(groups, Elements(Scan(sheet.value, TableTheme, Height(sheet.value))))
                           && NumberedTables(r.tables, groups))
  {
    if filename.None? {
      return NoFile;
    }
    if !EndsWith(filename.value, ".xlsx") && !EndsWith(filename.value, ".xls") {
      return InvalidFileType;
    }
    if sheet.None? {
      return ReadFailed;
    }
    var s := sheet.value;
    if s.minRow == s.maxRow == 1 && s.minCol == s.maxCol == 1 {
      return EmptySpreadsheet;
    }
    var green, dark := ClassifyCells(s);
    var groups := FindConnectedCells(green);
    var tables := ParseTables(groups);
    SeatTotalOfGroups(groups, tables);
    forall t | t in tables ensures t.seats >= 1 && t.posX >= 0 && t.posY >= 0 {
      var i :| 0 <= i < |tables| && tables[i] == t;
      TableBox(i + 1, groups[i]);
      var c: Cell :| c in groups[i] && c.row == t.posY;
      var d: Cell :| d in groups[i] && d.col == t.posX;
      CoveredMember(groups, c);
      CoveredMember(groups, d);
      ScanMember(s, TableTheme, Height(s), c);
      ScanMember(s, TableTheme, Height(s), d);
    }
    assert NumberedTables(tables, groups);
    r := Layout(Height(s), Width(s), tables, dark);
  }

  // ---------------------------------------------------------------------------
  // Request validators

  const Shapes: seq<string> := ["rectangle", "circle", "square", "booth"]
  const TableTypes: seq<string> := ["standard", "counter", "high_top", "outdoor", "booth"]

  /** `TableConfigInput`, with every default filled in. */
  datatype TableConfigInput = TableConfigInput(
    tableId: string, tableName: Option<string>, seats: int, shape: string,
    width: int, height: int, posX: int, posY: int, tableType: string,
    isActive: bool, minGuests: int, notes: Option<string>)

  /** The defaults for a table given only its id. */
  function DefaultTable(tableId: string): TableConfigInput
  {
    TableConfigInput(tableId, None, 4, "rectangle", 2, 2, 0, 0, "standard", true, 1, None)
  }

  /** The field's name when its check fails. */
  function Flag(ok: bool, field: string): (r: seq<string>)
    ensures r == [] <==> ok
  {
    if ok then [] else [field]
  }

  /** The fields of a table that fail their constraint, in declaration order;
      the input is accepted when there are none. */
  function TableErrors(t: TableConfigInput): (errs: seq<string>)
    ensures errs == [] <==>
      && 1 <= |t.tableId| <= 20 && (t.tableName.Some? ==> |t.tableName.value| <= 100)
      && 1 <= t.seats <= 50 && t.shape in Shapes
      && 1 <= t.width <= 10 && 1 <= t.height <= 10 && t.posX >= 0 && t.posY >= 0
      && t.tableType in TableTypes && t.minGuests >= 1
  {
    Flag(1 <= |t.tableId| <= 20, "table_id")
    + Flag(t.tableName.None? || |t.tableName.value| <= 100, "table_name")
    + Flag(1 <= t.seats <= 50, "seats")
    + Flag(t.shape in Shapes, "shape")
    + Flag(1 <= t.width <= 10, "width")
    + Flag(1 <= t.height <= 10, "height")
    + Flag(t.posX >= 0, "pos_x")
    + Flag(t.posY >= 0, "pos_y")
    + Flag(t.tableType in TableTypes, "table_type")
    + Flag(t.minGuests >= 1, "min_guests")
  }

  /** A table given only a well-sized id is accepted with its defaults. */
  lemma DefaultTableAccepted(tableId: string)
    requires 1 <= |tableId| <= 20
    ensures TableErrors(DefaultTable(tableId)) == []
  {
  }

  /** A table read from a spreadsheet group passes validation when it is small
      enough: at most 50 cells in a box of at most 10 by 10. Larger groups are
      returned by the import but refused when the plan is saved. */
  lemma ImportedTableAccepted(i: nat, g: seq<Cell>)
    requires g != [] && 1 <= i < Pow10(19)
    requires forall c :: c in g ==> c.row >= 0 && c.col >= 0
    requires |g| <= 50 && TableOf(i, g).width <= 10 && TableOf(i, g).height <= 10
    ensures var t := TableOf(i, g);
      TableErrors(TableConfigInput(t.tableId, None, t.seats, t.shape, t.width, t.height, t.posX, t.posY,
                                   "standard", true, 1, None)) == []
  {
    var t := TableOf(i, g);
    TableBox(i, g);
    var c :| c in g && c.row == t.posY;
    var d :| d in g && d.col == t.posX;
    NatToStringShort(i, 19);
  }

  /** A number below `10^k` has at most `k` digits. */
  lemma {:induction false} NatToStringShort(n: nat, k: nat)
    requires k >= 1 && n < Pow10(k)
    ensures |NatToString(n)| <= k
  {
    if n >= 10 {
      assert k >= 2;
      NatToStringShort(n / 10, k - 1);
    }
  }

  /** `FloorCellInput`. */
  datatype FloorCellInput = FloorCellInput(posX: int, posY: int, cellType: string, color: Option<string>)

  /** `FloorPlanInput`, with every default filled in. */
  datatype FloorPlanInput = FloorPlanInput(
    name: string, gridRows: int, gridCols: int, cellSize: int, floorColor: string,
    tables: seq<TableConfigInput>, floorCells: seq<FloorCellInput>)

  function DefaultFloorPlan(): FloorPlanInput
  {
    FloorPlanInput("Main Floor", 20, 20, 40, "#404040", [], [])
  }

  /** The fields of a floor plan that fail, a nested list failing when any of
      its entries does. */
  function FloorPlanErrors(p: FloorPlanInput): (errs: seq<string>)
    ensures errs == [] <==>
      && |p.name| <= 100 && 5 <= p.gridRows <= 100 && 5 <= p.gridCols <= 100 && 20 <= p.cellSize <= 100
      && (forall t :: t in p.tables ==> TableErrors(t) == [])
      && (forall c :: c in p.floorCells ==> c.posX >= 0 && c.posY >= 0)
  {
    Flag(|p.name| <= 100, "name")
    + Flag(5 <= p.gridRows <= 100, "grid_rows")
    + Flag(5 <= p.gridCols <= 100, "grid_cols")
    + Flag(20 <= p.cellSize <= 100, "cell_size")
    + Flag(forall t :: t in p.tables ==> TableErrors(t) == [], "tables")
    + Flag(forall c :: c in p.floorCells ==> c.posX >= 0 && c.posY >= 0, "floor_cells")
  }

  /** An empty request body is a valid plan. */
  lemma DefaultFloorPlanAccepted()
    ensures FloorPlanErrors(DefaultFloorPlan()) == []
  {
  }
}
