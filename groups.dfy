/** build_groups_grid: groups numbered 1, 2, ... laid out one per baseplate in row-major
    order, at most ten of them, the tenth centred across the grid. */
module Groups {
  import opened Wrappers
  import opened Numbers
  import opened Context
  import opened LDraw
  import opened Digits
  import opened Group

  const STUDS_PER_PLATE: int := 32
  const MAX_GROUPS: int := 10
  /** The first row of groups sits one baseplate row below the top row. */
  const ROW_OFFSET: int := 1

  /** min(n, 10): the loop stops after the tenth group. */
  function Capped(n: int): int {
    if n < MAX_GROUPS then n else MAX_GROUPS
  }

  /** How many groups the loop places on a cols x rows grid: each row adds cols more,
      up to ten. */
  function SlotCount(cols: int, rows: int): nat {
    if cols <= 0 || rows <= 0 then 0 else Capped(SlotCount(cols, rows - 1) + cols)
  }

  /** How many groups the loop has placed on reaching row r, column c. */
  function Done(cols: int, r: int, c: int): int {
    Capped(SlotCount(cols, r) + c)
  }

  /** The row (counted from the top) and column of slot k: the grid is filled row by row,
      cols slots to a row. */
  function SlotCell(cols: int, k: nat): (nat, nat)
    requires cols > 0
  {
    if k < cols then (0, k)
    else
      var rc := SlotCell(cols, k - cols);
      (rc.0 + 1, rc.1)
  }

  /** The centre, in studs, of slot k (group number k + 1): column c at x = 32c, row r at
      z = 32(rows - 2 - r); the tenth group is at column cols // 2 instead. */
  function SlotCentre(cols: int, rows: int, k: nat): (real, real)
    requires cols > 0
  {
    var (r, c) := SlotCell(cols, k);
    var z := ((rows - 1 - r - ROW_OFFSET) * STUDS_PER_PLATE) as real;
    if k + 1 == MAX_GROUPS then (((cols / 2) * STUDS_PER_PLATE) as real, z)
    else ((c * STUDS_PER_PLATE) as real, z)
  }

  /** The group in slot k: labelled str(k + 1) and centred on the slot. */
  function GroupAt(ctx: SceneContext, template: seq<Type1>, cols: int, rows: int, color: int, k: nat): Result<seq<Type1>>
    requires cols > 0
  {
    var centre := SlotCentre(cols, rows, k);
    Group.Group(ctx, template, ShowInt(k + 1), centre.0, centre.1, color)
  }

  /** lines.extend over a sequence of group results: the parts of all of them in order,
      or the first error (a failing group raises, so nothing after it is built). */
  function Concat(rs: seq<Result<seq<Type1>>>): Result<seq<Type1>> {
    if rs == [] then Ok([])
    else match Concat(rs[..|rs| - 1])
      case Err(e) => Err(e)
      case Ok(before) =>
        match rs[|rs| - 1]
        case Err(e) => Err(e)
        case Ok(g) => Ok(before + g)
  }

  /** The grid's groups, slot by slot. */
  function GroupResults(ctx: SceneContext, template: seq<Type1>, cols: int, rows: int, color: int): seq<Result<seq<Type1>>> {
    seq(SlotCount(cols, rows), k requires 0 <= k < SlotCount(cols, rows) => GroupAt(ctx, template, cols, rows, color, k))
  }

  /** What build_groups_grid returns. */
  function GroupsGrid(ctx: SceneContext, template: seq<Type1>, cols: int, rows: int, color: int): Result<seq<Type1>> {
    Concat(GroupResults(ctx, template, cols, rows, color))
  }

  /** results holds the grid's first |results| groups. */
  ghost predicate GroupsSoFar(ctx: SceneContext, template: seq<Type1>, cols: int, rows: int, color: int, results: seq<Result<seq<Type1>>>) {
    |results| <= SlotCount(cols, rows)
    && forall k {:trigger GroupAt(ctx, template, cols, rows, color, k)} ::
         0 <= k < |results| ==> results[k] == GroupAt(ctx, template, cols, rows, color, k)
  }

  /** The group built at the next slot's centre, with the next number, extends the
      groups so far. */
  lemma GroupsSoFarSnoc(ctx: SceneContext, template: seq<Type1>, cols: int, rows: int, color: int,
                        results: seq<Result<seq<Type1>>>, g: Result<seq<Type1>>, cx: real, cz: real)
    requires GroupsSoFar(ctx, template, cols, rows, color, results) && |results| < SlotCount(cols, rows)
    requires SlotCentre(cols, rows, |results|) == (cx, cz)
    requires g == Group.Group(ctx, template, ShowInt(|results| + 1), cx, cz, color)
    ensures GroupsSoFar(ctx, template, cols, rows, color, results + [g])
  {
    assert g == GroupAt(ctx, template, cols, rows, color, |results|);
  }

  /** One more result: its parts follow the earlier ones, or it is the first error. */
  lemma ConcatSnoc(rs: seq<Result<seq<Type1>>>, r: Result<seq<Type1>>)
    ensures Concat(rs).Err? ==> Concat(rs + [r]) == Concat(rs)
    ensures Concat(rs).Ok? && r.Err? ==> Concat(rs + [r]) == r
    ensures Concat(rs).Ok? && r.Ok? ==> Concat(rs + [r]) == Ok(Concat(rs).value + r.value)
  {
    assert (rs + [r])[..|rs|] == rs;
  }

  /** Once a prefix fails, the whole sequence fails with the same error. */
  lemma {:induction false} ConcatPrefixError(rs: seq<Result<seq<Type1>>>, n: nat)
    requires n <= |rs| && Concat(rs[..n]).Err?
    ensures Concat(rs) == Concat(rs[..n])
    decreases |rs|
  {
    if n < |rs| {
      var init := rs[..|rs| - 1];
      assert init[..n] == rs[..n];
      ConcatPrefixError(init, n);
    } else {
      assert rs[..n] == rs;
    }
  }

  /** All the grid's groups built: their concatenation is the grid. */
  lemma GroupsGridOfResults(ctx: SceneContext, template: seq<Type1>, cols: int, rows: int, color: int, results: seq<Result<seq<Type1>>>)
    requires GroupsSoFar(ctx, template, cols, rows, color, results) && |results| == SlotCount(cols, rows)
    ensures GroupsGrid(ctx, template, cols, rows, color) == Concat(results)
  {
    assert results == GroupResults(ctx, template, cols, rows, color);
  }

  /** A group failed: the grid fails with its error. */
  lemma GroupsGridError(ctx: SceneContext, template: seq<Type1>, cols: int, rows: int, color: int, results: seq<Result<seq<Type1>>>)
    requires GroupsSoFar(ctx, template, cols, rows, color, results) && Concat(results).Err?
    ensures GroupsGrid(ctx, template, cols, rows, color) == Concat(results)
  {
    var all := GroupResults(ctx, template, cols, rows, color);
    assert all[..|results|] == results;
    ConcatPrefixError(all, |results|);
  }

  /** A non-zero multiple of n is at least n away from zero. */
  lemma MultipleBound(d: int, n: int)
    requires n > 0
    ensures d >= 1 ==> d * n >= n
    ensures d <= -1 ==> d * n <= -n
  {
    if d >= 1 {
      assert d * n == (d - 1) * n + n;
    } else if d <= -1 {
      assert d * n == (d + 1) * n - n;
    }
  }

  /** Slot r * cols + c is row r, column c. */
  lemma SlotOfCell(cols: int, r: int, c: int)
    requires 0 <= r && 0 <= c < cols
    ensures (r * cols + c) / cols == r && (r * cols + c) % cols == c
  {
    var k := r * cols + c;
    var q, m := k / cols, k % cols;
    assert k == q * cols + m && 0 <= m < cols;
    assert (q - r) * cols == q * cols - r * cols;
    MultipleBound(q - r, cols);
  }

  /** Slot k is at row k / cols, column k % cols: the layout is row-major. */
  lemma {:induction false} SlotCellRowMajor(cols: int, k: nat)
    requires cols > 0
    ensures SlotCell(cols, k) == (k / cols, k % cols)
    decreases k
  {
    if k >= cols {
      SlotCellRowMajor(cols, k - cols);
      var (r, c) := SlotCell(cols, k - cols);
      assert k - cols == r * cols + c && 0 <= c < cols by {
        assert (k - cols) / cols == r && (k - cols) % cols == c;
      }
      assert k == (r + 1) * cols + c;
      SlotOfCell(cols, r + 1, c);
    }
  }

  /** While fewer than ten groups are placed, the slot the loop reaches at row r,
      column c is that cell. */
  lemma {:induction false} CellOfSlot(cols: int, r: nat, c: nat)
    requires c < cols && SlotCount(cols, r) + c < MAX_GROUPS
    ensures SlotCell(cols, SlotCount(cols, r) + c) == (r, c)
  {
    if r > 0 {
      CellOfSlot(cols, r - 1, c);
    }
  }

  /** A cols x rows grid takes min(cols * rows, 10) groups. */
  lemma {:induction false} SlotCountClosed(cols: int, rows: int)
    ensures SlotCount(cols, rows) == if cols <= 0 || rows <= 0 then 0 else Capped(cols * rows)
  {
    if cols > 0 && rows > 0 {
      SlotCountClosed(cols, rows - 1);
      assert cols * rows == cols * (rows - 1) + cols;
    }
  }

  /** The grid holds more groups as it gets more rows. */
  lemma {:induction false} SlotCountMonotone(cols: int, r: int, rows: int)
    requires 0 <= r <= rows
    ensures SlotCount(cols, r) <= SlotCount(cols, rows)
    decreases rows
  {
    if r < rows {
      SlotCountMonotone(cols, r, rows - 1);
    }
  }

  /** The loop's count after a full row, or after the cap is reached in row r. */
  lemma RowDone(cols: int, r: int, c: int)
    requires 0 <= r && 0 <= c && (c <= cols || c == 0)
    requires c >= cols || Done(cols, r, c) == MAX_GROUPS
    ensures Done(cols, r, c) == SlotCount(cols, r + 1)
  {
  }

  /** build_groups_grid: walk the grid row by row, numbering groups from 1 and stopping
      after the tenth. */
  method BuildGroupsGrid(ctx: SceneContext, template: seq<Type1>, cols: int, rows: int, color: int)
    returns (res: Result<seq<Type1>>)
    ensures res == GroupsGrid(ctx, template, cols, rows, color)
  {
    var lines: seq<Type1> := [];
    var groupIndex := 1;
    ghost var results: seq<Result<seq<Type1>>> := [];
    var r := 0;
    while r < rows
      invariant 0 <= r && (r <= rows || r == 0)
      invariant groupIndex - 1 == SlotCount(cols, r) == |results| <= SlotCount(cols, rows)
      invariant GroupsSoFar(ctx, template, cols, rows, color, results) && Concat(results) == Ok(lines)
    {
      SlotCountMonotone(cols, r + 1, rows);
      var row;
      groupIndex, row, results := BuildGroupsRow(ctx, template, cols, rows, color, r, groupIndex, lines, results);
      if row.Err? {
        GroupsGridError(ctx, template, cols, rows, color, results);
        return row;
      }
      lines := row.value;
      if groupIndex > MAX_GROUPS {
        break;
      }
      r := r + 1;
    }
    GroupsGridOfResults(ctx, template, cols, rows, color, results);
    res := Ok(lines);
  }

  /** The inner loop of build_groups_grid, over the columns of row r: it extends the groups
      built so far to those of r + 1 full rows (capped at ten), or stops at the first group
      that fails. */
  method BuildGroupsRow(ctx: SceneContext, template: seq<Type1>, cols: int, rows: int, color: int,
                        r: int, groupIndex0: int, lines0: seq<Type1>, ghost results0: seq<Result<seq<Type1>>>)
    returns (groupIndex: int, res: Result<seq<Type1>>, ghost results: seq<Result<seq<Type1>>>)
    requires 0 <= r && groupIndex0 - 1 == SlotCount(cols, r) == |results0|
    requires SlotCount(cols, r + 1) <= SlotCount(cols, rows)
    requires GroupsSoFar(ctx, template, cols, rows, color, results0) && Concat(results0) == Ok(lines0)
    ensures GroupsSoFar(ctx, template, cols, rows, color, results) && Concat(results) == res
    ensures |results| <= SlotCount(cols, r + 1)
    ensures res.Ok? ==> groupIndex - 1 == SlotCount(cols, r + 1) == |results|
  {
    groupIndex, results := groupIndex0, results0;
    var lines := lines0;
    var c := 0;
    while c < cols
      invariant 0 <= c && (c <= cols || c == 0)
      invariant groupIndex - 1 == Done(cols, r, c) == |results| <= SlotCount(cols, r + 1)
      invariant GroupsSoFar(ctx, template, cols, rows, color, results) && Concat(results) == Ok(lines)
    {
      if groupIndex > MAX_GROUPS {
        break;
      }
      var g := BuildSlot(ctx, template, cols, rows, color, r, c, groupIndex, results);
      ConcatSnoc(results, g);
      results := results + [g];
      if g.Err? {
        res := g;
        return;
      }
      lines := lines + g.value;
      groupIndex := groupIndex + 1;
      c := c + 1;
    }
    RowDone(cols, r, c);
    res := Ok(lines);
  }

  /** One pass of the inner loop's body at row r, column c: the centre of the slot (the
      tenth group centred across the grid), then build_group(ctx, template, str(group_index),
      center_x, center_z, color). The result is that slot's group. */
  method BuildSlot(ctx: SceneContext, template: seq<Type1>, cols: int, rows: int, color: int,
                   r: int, c: int, groupIndex: int, ghost results: seq<Result<seq<Type1>>>)
    returns (g: Result<seq<Type1>>)
    requires 0 <= r && 0 <= c < cols && SlotCount(cols, r + 1) <= SlotCount(cols, rows)
    requires groupIndex - 1 == SlotCount(cols, r) + c == |results| < MAX_GROUPS
    requires GroupsSoFar(ctx, template, cols, rows, color, results)
    ensures |results| < SlotCount(cols, r + 1)
    ensures GroupsSoFar(ctx, template, cols, rows, color, results + [g])
  {
    var rowOffset := ROW_OFFSET;
    var centerX, centerZ;
    if groupIndex == MAX_GROUPS {
      centerX := (cols / 2) * STUDS_PER_PLATE;
      centerZ := (rows - 1 - r - rowOffset) * STUDS_PER_PLATE;
    } else {
      centerX := c * STUDS_PER_PLATE;
      centerZ := (rows - 1 - r - rowOffset) * STUDS_PER_PLATE;
    }
    SlotStep(cols, rows, r, c);
    g := BuildGroup(ctx, template, ShowInt(groupIndex), centerX as real, centerZ as real, color);
    GroupsSoFarSnoc(ctx, template, cols, rows, color, results, g, centerX as real, centerZ as real);
  }

  /** The cell the inner loop is at, while fewer than ten groups are placed, is the next
      slot, and the grid has room for it. */
  lemma SlotStep(cols: int, rows: int, r: int, c: int)
    requires 0 <= r && 0 <= c < cols
    requires SlotCount(cols, r) + c < MAX_GROUPS
    ensures SlotCount(cols, r) + c < SlotCount(cols, r + 1)
    ensures SlotCentre(cols, rows, SlotCount(cols, r) + c)
         == (((if SlotCount(cols, r) + c + 1 == MAX_GROUPS then cols / 2 else c) * STUDS_PER_PLATE) as real,
             ((rows - 1 - r - ROW_OFFSET) * STUDS_PER_PLATE) as real)
  {
    CellOfSlot(cols, r, c);
  }

  /** str(n) of a non-negative number is all digits, so it always renders. */
  lemma LabelRenders(ctx: SceneContext, n: nat, cx: real, cz: real, color: int)
    ensures CenteredPlates(ctx, DIGITS_5x7, ShowInt(n), cx, cz, color).Ok?
  {
    var s := ShowInt(n);
    AllDigitsAt(s);
    DigitsKeys();
    RenderedErrors(DIGITS_5x7, s, 1);
  }

  /** Every group on the grid succeeds exactly when the template is not empty. */
  lemma GroupAtShape(ctx: SceneContext, template: seq<Type1>, cols: int, rows: int, color: int, k: nat)
    requires cols > 0
    ensures GroupAt(ctx, template, cols, rows, color, k).Ok? <==> template != []
    ensures template == [] ==> GroupAt(ctx, template, cols, rows, color, k) == Err(EmptyAssembly)
  {
    var centre := SlotCentre(cols, rows, k);
    LabelRenders(ctx, k + 1, centre.0, centre.1, color);
    GroupShape(ctx, template, ShowInt(k + 1), centre.0, centre.1, color);
  }

  /** The concatenation succeeds exactly when every result does. */
  lemma {:induction false} ConcatOk(rs: seq<Result<seq<Type1>>>)
    ensures Concat(rs).Ok? <==> forall k :: 0 <= k < |rs| ==> rs[k].Ok?
  {
    if rs != [] {
      var init := rs[..|rs| - 1];
      ConcatOk(init);
      assert forall k :: 0 <= k < |init| ==> init[k] == rs[k];
    }
  }

  /** build_groups_grid fails only for an empty template on a grid with room for a group,
      and then with EmptyAssembly; every number label renders. */
  lemma GroupsGridShape(ctx: SceneContext, template: seq<Type1>, cols: int, rows: int, color: int)
    ensures GroupsGrid(ctx, template, cols, rows, color).Ok? <==> template != [] || SlotCount(cols, rows) == 0
    ensures GroupsGrid(ctx, template, cols, rows, color).Err? ==>
      GroupsGrid(ctx, template, cols, rows, color) == Err(EmptyAssembly)
  {
    var rs := GroupResults(ctx, template, cols, rows, color);
    ConcatOk(rs);
    forall k | 0 <= k < |rs|
      ensures rs[k].Ok? <==> template != []
      ensures template == [] ==> rs[k] == Err(EmptyAssembly)
    {
      GroupAtShape(ctx, template, cols, rows, color, k);
    }
    if rs != [] && template == [] {
      assert rs[..1] == [rs[0]];
      assert Concat(rs[..1]) == Err(EmptyAssembly);
      ConcatPrefixError(rs, 1);
    }
  }

  /** Different slots are different cells. */
  lemma SlotCellsDistinct(cols: int, k1: nat, k2: nat)
    requires cols > 0 && k1 != k2
    ensures SlotCell(cols, k1) != SlotCell(cols, k2)
  {
    SlotCellRowMajor(cols, k1);
    SlotCellRowMajor(cols, k2);
  }

  /** Two groups share a centre exactly when the later one is group 10 and the earlier
      one sits on the same row at column cols // 2; otherwise every group has its own spot. */
  lemma SlotCentresCoincide(cols: int, rows: int, k1: nat, k2: nat)
    requires k1 < k2 < SlotCount(cols, rows)
    ensures SlotCentre(cols, rows, k1) == SlotCentre(cols, rows, k2)
        <==> k2 + 1 == MAX_GROUPS && SlotCell(cols, k1).0 == SlotCell(cols, k2).0 && SlotCell(cols, k1).1 == cols / 2
  {
    assert cols > 0;
    SlotCellsDistinct(cols, k1, k2);
  }

  /** With five columns, group 10 lands on group 8's spot. */
  lemma FiveColumnsOverlap(rows: int)
    requires rows >= 2
    ensures 9 < SlotCount(5, rows) && SlotCentre(5, rows, 7) == SlotCentre(5, rows, 9)
  {
    SlotCountClosed(5, rows);
    SlotCentresCoincide(5, rows, 7, 9);
    SlotCellRowMajor(5, 7);
    SlotCellRowMajor(5, 9);
  }

  /** With three columns (the layout the program builds) no two groups share a spot. */
  lemma ThreeColumnsDistinct(rows: int, k1: nat, k2: nat)
    requires k1 < k2 < SlotCount(3, rows)
    ensures SlotCentre(3, rows, k1) != SlotCentre(3, rows, k2)
  {
    SlotCentresCoincide(3, rows, k1, k2);
    SlotCellRowMajor(3, k1);
    SlotCellRowMajor(3, 9);
  }

  /** Group 10 sits on the grid's middle column line when cols is odd and half a baseplate
      (16 studs) right of it when cols is even. */
  lemma TenthGroupCentred(cols: int, rows: int)
    requires cols > 0
    ensures SlotCentre(cols, rows, 9).0
         == GridCenterInStuds(cols, rows, STUDS_PER_PLATE, 0.0, 0.0).0 + (if cols % 2 == 0 then 16.0 else 0.0)
  {
    var m := cols / 2;
    assert cols == 2 * m + cols % 2;
  }
}
