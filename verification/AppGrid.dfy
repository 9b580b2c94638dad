/**
 The launcher grid (player/appgrid.go): measuring tiles, the scrolled window, the
 windowed render loop, the hit test and D-pad movement.
 Coordinates are unbounded integers; division truncates as Go's does.
 */
module AppGrid {

  const MIN_TILE_W := 152
  const TILE_H := 132
  const GAP := 12
  const PAD := 12
  const HEAD_H := 44

  function GoDiv(a: int, b: int): int
    requires b > 0
  {
    if a >= 0 then a / b else -((-a) / b)
  }

  datatype Layout = Layout(tileW: int, tileH: int, gap: int, cols: int, originX: int, originY: int)
  datatype Rect = Rect(x: int, y: int, w: int, h: int)

  /** The element's place on the screen. */
  datatype Panel = Panel(x: int, y: int, w: int, h: int)

  function NewLayout(p: Panel): (l: Layout)
    ensures l.cols >= 1 && l.tileW >= 1 && l.tileH == TILE_H && l.gap == GAP
  {
    var usable := p.w - PAD * 2;
    var cols := if usable <= 0 then 1 else Max(1, GoDiv(usable + GAP, MIN_TILE_W + GAP));
    var tileW := if usable <= 0 then MIN_TILE_W else GoDiv(usable - (cols - 1) * GAP, cols);
    TileWidthPositive(usable);
    Layout(tileW, TILE_H, GAP, cols, p.x + PAD, p.y + HEAD_H)
  }

  function Max(a: int, b: int): int { if a > b then a else b }

  lemma TileWidthPositive(usable: int)
    ensures var cols := Max(1, GoDiv(usable + GAP, MIN_TILE_W + GAP));
            usable > 0 ==> var w := GoDiv(usable - (cols - 1) * GAP, cols);
                           w >= 1 && (cols > 1 ==> w >= MIN_TILE_W) && cols * w + (cols - 1) * GAP <= usable
  {
    if usable > 0 {
      var cols := Max(1, GoDiv(usable + GAP, MIN_TILE_W + GAP));
      var left := usable - (cols - 1) * GAP;
      assert cols > 1 ==> left >= cols * MIN_TILE_W;
      assert left > 0;
      if cols > 1 { DivAtLeast(left, cols, MIN_TILE_W); }
      assert cols * (left / cols) <= left by { assert left == cols * (left / cols) + left % cols; }
    }
  }

  function Rows(p: Panel, l: Layout): (rows: int)
    requires l.tileH + l.gap > 0
    ensures rows >= 1
  {
    Max(1, GoDiv(p.h - HEAD_H - PAD + l.gap, l.tileH + l.gap))
  }

  /** The first visible row, chosen so that the focused row is inside the window. */
  function FirstRow(focus: int, rows: int, total: nat, cols: int): int
    requires rows >= 1 && cols >= 1
  {
    var totalRows := (total + cols - 1) / cols;
    if totalRows <= rows then 0
    else
      var focusedRow := Max(0, focus) / cols;
      var first := if focusedRow >= rows then focusedRow - rows + 1 else 0;
      if first > totalRows - rows then totalRows - rows else first
  }

  /** The half-open window of entries the render loop visits. */
  function VisibleRange(total: nat, cols: int, rows: int, firstRow: int): (r: (int, int))
    requires cols >= 1 && rows >= 1
    ensures 0 <= r.0 <= r.1 <= total
  {
    var wanted := Max(0, firstRow) * cols;
    assert wanted >= 0 by { MulNonneg(Max(0, firstRow), cols); }
    var start := if wanted > total then total else wanted;
    var stop := start + (rows + 1) * cols;
    assert stop >= start by { MulNonneg(rows + 1, cols); }
    (start, if stop > total then total else stop)
  }

  function CellRect(l: Layout, index: nat, firstRow: int): Rect
    requires l.cols >= 1
  {
    Rect(l.originX + index % l.cols * (l.tileW + l.gap),
         l.originY + (index / l.cols - firstRow) * (l.tileH + l.gap), l.tileW, l.tileH)
  }

  // ----- arithmetic -----

  lemma MulNonneg(a: int, b: int)
    requires a >= 0 && b >= 0
    ensures a * b >= 0
  {}

  lemma MulMono(a: int, b: int, k: int)
    requires a <= b && k >= 0
    ensures a * k <= b * k
  {
    MulNonneg(b - a, k);
    assert (b - a) * k == b * k - a * k;
  }

  lemma LessFromMul(a: int, b: int, k: int)
    requires k >= 1 && a * k < b * k
    ensures a < b
  {
    if a >= b { MulMono(b, a, k); }
  }

  lemma DivAtLeast(a: int, b: int, k: int)
    requires b >= 1 && a >= b * k
    ensures a / b >= k
  {
    assert a == b * (a / b) + a % b && a % b < b;
    assert (a / b + 1) * b == b * (a / b) + b;
    LessFromMul(k, a / b + 1, b);
  }

  lemma DivBelow(a: int, b: int, k: int)
    requires b >= 1 && a < b * k
    ensures a / b < k
  {
    assert a == b * (a / b) + a % b && 0 <= a % b;
    LessFromMul(a / b, k, b);
  }

  lemma SplitIndex(row: int, col: int, cols: int)
    requires cols >= 1 && 0 <= col < cols
    ensures (row * cols + col) / cols == row && (row * cols + col) % cols == col
  {
    var i := row * cols + col;
    MulMono(row, row, cols);
    assert (row + 1) * cols == row * cols + cols;
    DivAtLeast(i, cols, row);
    DivBelow(i, cols, row + 1);
    assert i == cols * (i / cols) + i % cols;
  }

  // ----- the measured grid -----

  /** As many columns of at least 152 pixels as fit between the paddings, as wide as they can be; one when none fits. */
  lemma LayoutIs(p: Panel)
    ensures var l, room := NewLayout(p), p.w - 24;
            && l.originX == p.x + 12 && l.originY == p.y + 44 && l.tileH == 132 && l.gap == 12
            && (room <= 0 ==> l.cols == 1 && l.tileW == 152)
            && (l.cols > 1 ==> l.cols * 152 + (l.cols - 1) * 12 <= room)
            && (l.cols + 1) * 152 + l.cols * 12 > room
            && (room > 0 ==> l.cols * l.tileW + (l.cols - 1) * 12 <= room < l.cols * (l.tileW + 1) + (l.cols - 1) * 12)
  {
    var l, room := NewLayout(p), p.w - 24;
    if room > 0 {
      TileWidthPositive(room);
      ColumnsAre(room, l.cols);
      QuotientIs(room - (l.cols - 1) * 12, l.cols);
      assert l.cols * (l.tileW + 1) == l.cols * l.tileW + l.cols;
    }
  }

  lemma ColumnsAre(room: int, cols: int)
    requires room > 0 && cols == Max(1, GoDiv(room + 12, 164))
    ensures (cols > 1 ==> cols * 152 + (cols - 1) * 12 <= room) && (cols + 1) * 152 + cols * 12 > room
  {
    QuotientIs(room + 12, 164);
  }

  lemma QuotientIs(a: int, b: int)
    requires b >= 1 && a >= 0
    ensures b * (a / b) <= a < b * (a / b) + b
  {
    assert a == b * (a / b) + a % b;
  }

  /** As many rows of 132 pixels as fit below the header, at least one. */
  lemma RowsIs(p: Panel)
    ensures var rows := Rows(p, NewLayout(p));
            && (rows > 1 ==> 44 + rows * 132 + (rows - 1) * 12 + 12 <= p.h)
            && 44 + (rows + 1) * 132 + rows * 12 + 12 > p.h
  {
    var a := p.h - 44;
    if a >= 0 { QuotientIs(a, 144); }
  }

  /** The tile of a row and a column: one tile and one gap further for each. */
  lemma CellIs(l: Layout, row: nat, col: nat, firstRow: int)
    requires col < l.cols
    ensures 0 <= row * l.cols
    ensures CellRect(l, row * l.cols + col, firstRow)
            == Rect(l.originX + col * (l.tileW + l.gap), l.originY + (row - firstRow) * (l.tileH + l.gap), l.tileW, l.tileH)
  {
    MulNonneg(row, l.cols);
    SplitIndex(row, col, l.cols);
  }

  /** No tile reaches beyond the paddings of a panel that has room for one. */
  lemma TilesFitAcross(p: Panel, i: nat, firstRow: int)
    requires p.w > 24
    ensures var cell := CellRect(NewLayout(p), i, firstRow); p.x + 12 <= cell.x && cell.x + cell.w <= p.x + p.w - 12
  {
    var l := NewLayout(p);
    var col, k := i % l.cols, l.tileW + 12;
    LayoutIs(p);
    MulNonneg(col, k);
    MulMono(col + 1, l.cols, k);
    assert (col + 1) * k == col * k + k && l.cols * k == l.cols * l.tileW + l.cols * 12;
  }

  lemma RowCount(total: nat, cols: int, last: nat)
    requires cols >= 1 && last * cols < total <= (last + 1) * cols
    ensures (total + cols - 1) / cols == last + 1
  {
    assert (last + 1) * cols == last * cols + cols;
    assert (last + 2) * cols == last * cols + cols + cols;
    DivAtLeast(total + cols - 1, cols, last + 1);
    DivBelow(total + cols - 1, cols, last + 2);
  }

  lemma FocusedRow(focus: int, total: nat, cols: int, last: nat)
    requires cols >= 1 && last * cols < total <= (last + 1) * cols && focus >= 0
    ensures focus / cols >= 0
    ensures focus < total ==> focus / cols <= last
    ensures focus >= total ==> focus / cols >= last
  {
    DivAtLeast(focus, cols, 0);
    if focus < total { DivBelow(focus, cols, last + 1); } else { DivAtLeast(focus, cols, last); }
  }

  /** The window never starts before the first row or ends beyond the last; a stale focus shows the end. */
  lemma FirstRowIs(focus: int, rows: int, total: nat, cols: int, last: nat)
    requires rows >= 1 && cols >= 1 && last * cols < total <= (last + 1) * cols
    ensures var first := FirstRow(focus, rows, total, cols);
            && 0 <= first && (first > 0 ==> first + rows <= last + 1)
            && (focus < 0 ==> first == 0)
            && (0 <= focus < total ==> first == if focus / cols < rows then 0 else focus / cols - rows + 1)
            && (focus >= total ==> first == if last + 1 <= rows then 0 else last + 1 - rows)
  {
    RowCount(total, cols, last);
    if focus >= 0 { FocusedRow(focus, total, cols, last); } else { FocusedRow(0, total, cols, last); }
  }

  /** The loop visits the rows of the window and one more, and nothing before them. */
  lemma WindowIs(total: nat, cols: int, rows: int, firstRow: nat, i: nat)
    requires cols >= 1 && rows >= 1
    ensures var range := VisibleRange(total, cols, rows, firstRow);
            range.0 <= i < range.1 <==> i < total && firstRow * cols <= i < (firstRow + rows + 1) * cols
  {
    MulNonneg(firstRow, cols);
    assert (firstRow + rows + 1) * cols == firstRow * cols + (rows + 1) * cols;
    MulNonneg(rows + 1, cols);
  }

  // ----- drawing -----

  /** The render loop's test: some part of the tile is inside the panel. */
  predicate Overlaps(p: Panel, cell: Rect) {
    !(cell.y + cell.h <= p.y + HEAD_H - 4 || cell.y >= p.y + p.h - 4)
  }

  /** The test keeps exactly the tiles that share a line of pixels with the area the panel clips to. */
  lemma OverlapsIff(p: Panel, cell: Rect)
    requires cell.h > 0 && p.h > 44
    ensures Overlaps(p, cell) <==> exists y :: LineShared(p, cell, y)
  {
    if Overlaps(p, cell) { assert LineShared(p, cell, Max(cell.y, p.y + 40)); }
  }

  predicate LineShared(p: Panel, cell: Rect, y: int) { cell.y <= y < cell.y + cell.h && p.y + 40 <= y < p.y + p.h - 4 }

  /** The tiles a scan of entries 0..n would draw, in order. */
  function Scan(p: Panel, l: Layout, n: nat, firstRow: int): seq<nat>
    requires l.cols >= 1
  {
    if n == 0 then []
    else Scan(p, l, n - 1, firstRow) + if Overlaps(p, CellRect(l, n - 1, firstRow)) then [n - 1] else []
  }

  /** A tile the scan would draw is inside the visited window. */
  lemma DrawnIsVisited(p: Panel, total: nat, i: nat, firstRow: nat)
    requires i < total
    requires Overlaps(p, CellRect(NewLayout(p), i, firstRow))
    ensures var l := NewLayout(p); var range := VisibleRange(total, l.cols, Rows(p, l), firstRow); range.0 <= i < range.1
  {
    var l := NewLayout(p);
    var rows := Rows(p, l);
    var row := i / l.cols;
    assert row >= firstRow;
    assert row <= firstRow + rows by {
      assert p.h - HEAD_H < (rows + 1) * (TILE_H + GAP);
    }
    assert i == l.cols * row + i % l.cols;
    MulMono(firstRow, row, l.cols);
    MulMono(row, firstRow + rows, l.cols);
    assert (firstRow + rows) * l.cols + l.cols == firstRow * l.cols + (rows + 1) * l.cols;
  }

  lemma {:induction false} ScanSkips(p: Panel, l: Layout, a: nat, b: nat, firstRow: int)
    requires l.cols >= 1 && a <= b
    requires forall i :: a <= i < b ==> !Overlaps(p, CellRect(l, i, firstRow))
    ensures Scan(p, l, b, firstRow) == Scan(p, l, a, firstRow)
  {
    if a < b { ScanSkips(p, l, a, b - 1, firstRow); }
  }

  /** The windowed loop of renderAppGrid draws exactly what a scan of every entry would draw. */
  method RenderTiles(p: Panel, total: nat, firstRow: nat) returns (drawn: seq<nat>)
    ensures drawn == Scan(p, NewLayout(p), total, firstRow)
  {
    var l := NewLayout(p);
    var range := VisibleRange(total, l.cols, Rows(p, l), firstRow);
    forall i: nat | i < total && !(range.0 <= i < range.1) ensures !Overlaps(p, CellRect(l, i, firstRow)) {
      if Overlaps(p, CellRect(l, i, firstRow)) { DrawnIsVisited(p, total, i, firstRow); }
    }
    ScanSkips(p, l, 0, range.0, firstRow);
    drawn := [];
    var i := range.0;
    while i < range.1
      invariant range.0 <= i <= range.1
      invariant drawn == Scan(p, l, i, firstRow)
    {
      if Overlaps(p, CellRect(l, i, firstRow)) { drawn := drawn + [i]; }
      i := i + 1;
    }
    ScanSkips(p, l, range.1, total, firstRow);
  }

  lemma {:induction false} ScanMembers(p: Panel, l: Layout, n: nat, firstRow: int, i: nat)
    requires l.cols >= 1
    ensures i in Scan(p, l, n, firstRow) <==> i < n && Overlaps(p, CellRect(l, i, firstRow))
  {
    if n > 0 { ScanMembers(p, l, n - 1, firstRow, i); }
  }

  // ----- hit testing -----

  /** The point is on the tile, edges included. */
  predicate Covers(cell: Rect, mx: int, my: int) {
    cell.x <= mx <= cell.x + cell.w && cell.y <= my <= cell.y + cell.h
  }

  /** Only tiles wholly inside the panel's height can be clicked. */
  predicate Clickable(p: Panel, cell: Rect) { p.y <= cell.y && cell.y + cell.h <= p.y + p.h }

  predicate Hits(p: Panel, l: Layout, i: nat, firstRow: int, mx: int, my: int)
    requires l.cols >= 1
  {
    var cell := CellRect(l, i, firstRow);
    Clickable(p, cell) && Covers(cell, mx, my)
  }

  /** A point hits a tile exactly when the tile is whole inside the panel and the point is on it, edges included. */
  lemma HitsIff(p: Panel, l: Layout, row: nat, col: nat, firstRow: int, dx: int, dy: int)
    requires col < l.cols
    ensures 0 <= row * l.cols
    ensures var left, top := l.originX + col * (l.tileW + l.gap), l.originY + (row - firstRow) * (l.tileH + l.gap);
            Hits(p, l, row * l.cols + col, firstRow, left + dx, top + dy)
            <==> p.y <= top && top + l.tileH <= p.y + p.h && 0 <= dx <= l.tileW && 0 <= dy <= l.tileH
  {
    CellIs(l, row, col, firstRow);
  }

  /** Tiles are separated by the gap, so no point is on two of them. */
  lemma CellsDisjoint(l: Layout, i: nat, j: nat, firstRow: int, mx: int, my: int)
    requires l.cols >= 1 && l.tileW >= 1 && l.tileH >= 1 && l.gap >= 1
    requires Covers(CellRect(l, i, firstRow), mx, my) && Covers(CellRect(l, j, firstRow), mx, my)
    ensures i == j
  {
    SameBand(i % l.cols, j % l.cols, l.tileW, l.gap, mx - l.originX);
    SameBand(i / l.cols - firstRow, j / l.cols - firstRow, l.tileH, l.gap, my - l.originY);
    assert i == l.cols * (i / l.cols) + i % l.cols && j == l.cols * (j / l.cols) + j % l.cols;
  }

  lemma SameBand(a: int, b: int, size: int, gap: int, at: int)
    requires size >= 1 && gap >= 1
    requires a * (size + gap) <= at <= a * (size + gap) + size
    requires b * (size + gap) <= at <= b * (size + gap) + size
    ensures a == b
  {
    var k := size + gap;
    assert (a + 1) * k == a * k + k && (b + 1) * k == b * k + k;
    if a < b { MulMono(a + 1, b, k); }
    if b < a { MulMono(b + 1, a, k); }
  }

  /** A clickable tile of the panel is also a drawn one. */
  lemma ClickableIsDrawn(p: Panel, i: nat, firstRow: int)
    requires Clickable(p, CellRect(NewLayout(p), i, firstRow))
    ensures Overlaps(p, CellRect(NewLayout(p), i, firstRow))
  {}

  /** appGridIndexAt: the one tile under the point, which is always a drawn tile, or -1 if there is none. */
  method IndexAt(p: Panel, total: nat, focus: int, mx: int, my: int) returns (hit: int)
    ensures -1 <= hit < total
    ensures var l := NewLayout(p);
            var first := FirstRow(focus, Rows(p, l), total, l.cols);
            && (forall i: nat :: i < total ==> (Hits(p, l, i, first, mx, my) <==> hit == i))
            && (forall i: nat :: i < total && hit == i ==>
                  var cell := CellRect(l, i, first);
                  && p.y <= cell.y && cell.y + cell.h <= p.y + p.h
                  && 0 <= mx - cell.x <= cell.w && 0 <= my - cell.y <= cell.h)
            && (hit >= 0 ==> hit in Scan(p, l, total, first))
  {
    var l := NewLayout(p);
    var first := FirstRow(focus, Rows(p, l), total, l.cols);
    var i := 0;
    while i < total
      invariant 0 <= i <= total
      invariant forall j: nat :: j < i ==> !Hits(p, l, j, first, mx, my)
    {
      var cell := CellRect(l, i, first);
      if !(cell.y + cell.h > p.y + p.h || cell.y < p.y) {
        if mx >= cell.x && mx <= cell.x + cell.w && my >= cell.y && my <= cell.y + cell.h {
          forall j: nat | j < total && Hits(p, l, j, first, mx, my) ensures j == i {
            CellsDisjoint(l, i, j, first, mx, my);
          }
          ClickableIsDrawn(p, i, first);
          ScanMembers(p, l, total, first, i);
          return i;
        }
      }
      i := i + 1;
    }
    return -1;
  }

  // ----- the focused tile and the window -----

  /** The focused row lies inside the window, whatever the list length and scroll position. */
  lemma FocusInWindow(focus: nat, rows: int, total: nat, cols: int)
    requires focus < total && rows >= 1 && cols >= 1
    ensures var first := FirstRow(focus, rows, total, cols);
            0 <= first <= focus / cols < first + rows
  {
    var totalRows := (total + cols - 1) / cols;
    assert total + cols - 1 == cols * totalRows + (total + cols - 1) % cols;
    DivBelow(focus, cols, totalRows);
    DivAtLeast(focus, cols, 0);
  }

  /** It is drawn exactly when the panel is taller than its header, and wholly inside it from 188 pixels on. */
  lemma FocusIsDrawn(p: Panel, total: nat, focus: nat)
    requires focus < total
    ensures var l := NewLayout(p);
            var cell := CellRect(l, focus, FirstRow(focus, Rows(p, l), total, l.cols));
            && (p.h >= HEAD_H + TILE_H + GAP ==> Clickable(p, cell) && Overlaps(p, cell))
            && (Overlaps(p, cell) <==> p.h > HEAD_H + 4)
  {
    var l := NewLayout(p);
    var rows := Rows(p, l);
    FocusInWindow(focus, rows, total, l.cols);
    var up := focus / l.cols - FirstRow(focus, rows, total, l.cols);
    var cell := CellRect(l, focus, FirstRow(focus, rows, total, l.cols));
    assert cell.y == p.y + HEAD_H + up * 144;
    if p.h >= HEAD_H + TILE_H + GAP {
      assert rows * 144 <= p.h - HEAD_H;
    } else {
      assert rows == 1;
    }
  }

  // ----- movement -----

  /** appGridMove on a list of n > 0 entries. */
  function Moved(focus: int, n: nat, cols: int, dx: int, dy: int): (f: int)
    requires n > 0 && cols >= 1
    ensures 0 <= f < n
  {
    if focus < 0 || focus >= n then 0
    else
      var row := if dy != 0 then Max(0, focus / cols + dy) else focus / cols;
      var col := if dx == 0 then focus % cols
                 else if focus % cols + dx < 0 then 0
                 else if focus % cols + dx > cols - 1 then cols - 1
                 else focus % cols + dx;
      var idx := row * cols + col;
      if idx >= n then n - 1 else if idx < 0 then 0 else idx
  }

  datatype Pad = Left | Right | Up | Down

  function Press(focus: int, n: nat, cols: int, key: Pad): int
    requires n > 0 && cols >= 1
  {
    match key
    case Left => Moved(focus, n, cols, -1, 0)
    case Right => Moved(focus, n, cols, 1, 0)
    case Up => Moved(focus, n, cols, 0, -1)
    case Down => Moved(focus, n, cols, 0, 1)
  }

  function Walk(focus: int, n: nat, cols: int, keys: seq<Pad>): int
    requires n > 0 && cols >= 1
  {
    if keys == [] then focus else Press(Walk(focus, n, cols, keys[..|keys| - 1]), n, cols, keys[|keys| - 1])
  }

  lemma {:induction false} WalkAppend(focus: int, n: nat, cols: int, a: seq<Pad>, b: seq<Pad>)
    requires n > 0 && cols >= 1
    ensures Walk(focus, n, cols, a + b) == Walk(Walk(focus, n, cols, a), n, cols, b)
  {
    if b == [] {
      assert a + b == a;
    } else {
      assert (a + b)[..|a + b| - 1] == a + b[..|b| - 1];
      WalkAppend(focus, n, cols, a, b[..|b| - 1]);
    }
  }

  function Repeat(key: Pad, k: nat): seq<Pad> { seq(k, _ => key) }

  /** Where one press leads from (row, col) when nothing clamps it. */
  lemma PressFrom(row: nat, col: nat, n: nat, cols: int)
    requires cols >= 1 && col < cols && row * cols + col < n
    ensures 0 <= row * cols + col
    ensures col > 0 ==> Press(row * cols + col, n, cols, Left) == row * cols + col - 1
    ensures col + 1 < cols && row * cols + col + 1 < n ==> Press(row * cols + col, n, cols, Right) == row * cols + col + 1
    ensures row > 0 ==> Press(row * cols + col, n, cols, Up) == (row - 1) * cols + col
    ensures (row + 1) * cols + col < n ==> Press(row * cols + col, n, cols, Down) == (row + 1) * cols + col
  {
    SplitIndex(row, col, cols);
    MulNonneg(row, cols);
    assert (row + 1) * cols == row * cols + cols;
    if row > 0 { MulNonneg(row - 1, cols); assert (row - 1) * cols == row * cols - cols; }
  }

  /**
   Where a press leads that cannot go straight: it stays at the left and right edge, in the
   first and the last row and before a missing tile; down above a gap goes to the last tile,
   and a focus that is on no entry goes to the first.
   */
  lemma PressClamped(row: nat, col: nat, n: nat, cols: int, focus: int, key: Pad)
    requires cols >= 1 && col < cols && row * cols + col < n
    ensures 0 <= row * cols + col
    ensures var at := row * cols + col;
            && (col == 0 ==> Press(at, n, cols, Left) == at)
            && (col + 1 == cols || at + 1 == n ==> Press(at, n, cols, Right) == at)
            && (row == 0 ==> Press(at, n, cols, Up) == at)
            && ((row + 1) * cols + col >= n ==> Press(at, n, cols, Down) == n - 1)
    ensures focus < 0 || focus >= n ==> Press(focus, n, cols, key) == 0
  {
    SplitIndex(row, col, cols);
    MulNonneg(row, cols);
    assert (row + 1) * cols == row * cols + cols;
  }

  /** Left and right never leave the row, and down leaves the column only for the last tile. */
  lemma PressKeepsLine(row: nat, col: nat, n: nat, cols: int, key: Pad)
    requires cols >= 1 && col < cols && row * cols + col < n
    ensures 0 <= row * cols + col
    ensures var to := Press(row * cols + col, n, cols, key);
            && (key == Left || key == Right ==> to / cols == row)
            && (key == Up || key == Down ==> to % cols == col || (key == Down && to == n - 1))
  {
    var at := row * cols + col;
    SplitIndex(row, col, cols);
    MulNonneg(row, cols);
    PressClamped(row, col, n, cols, 0, key);
    PressFrom(row, col, n, cols);
    match key {
      case Left => if col > 0 { SplitIndex(row, col - 1, cols); }
      case Right => if col + 1 < cols { SplitIndex(row, col + 1, cols); }
      case Up => if row > 0 { SplitIndex(row - 1, col, cols); }
      case Down => if (row + 1) * cols + col < n { SplitIndex(row + 1, col, cols); }
    }
  }

  lemma {:induction false} LeftToEdge(row: nat, col: nat, n: nat, cols: int, k: nat)
    requires cols >= 1 && col < cols && row * cols + col < n && k <= col
    ensures Walk(row * cols + col, n, cols, Repeat(Left, k)) == row * cols + col - k
  {
    if k > 0 {
      LeftToEdge(row, col, n, cols, k - 1);
      assert Repeat(Left, k)[..k - 1] == Repeat(Left, k - 1);
      PressFrom(row, col - (k - 1), n, cols);
    }
  }

  lemma {:induction false} RightFromEdge(row: nat, n: nat, cols: int, k: nat)
    requires cols >= 1 && k < cols && row * cols + k < n
    ensures Walk(row * cols, n, cols, Repeat(Right, k)) == row * cols + k
  {
    if k > 0 {
      RightFromEdge(row, n, cols, k - 1);
      assert Repeat(Right, k)[..k - 1] == Repeat(Right, k - 1);
      PressFrom(row, k - 1, n, cols);
    }
  }

  lemma {:induction false} UpRows(row: nat, n: nat, cols: int, k: nat)
    requires cols >= 1 && row * cols < n && k <= row
    ensures Walk(row * cols, n, cols, Repeat(Up, k)) == (row - k) * cols
  {
    if k > 0 {
      UpRows(row, n, cols, k - 1);
      assert Repeat(Up, k)[..k - 1] == Repeat(Up, k - 1);
      MulMono(row - (k - 1), row, cols);
      PressFrom(row - (k - 1), 0, n, cols);
    }
  }

  lemma {:induction false} DownRows(row: nat, n: nat, cols: int, k: nat)
    requires cols >= 1 && (row + k) * cols < n
    ensures Walk(row * cols, n, cols, Repeat(Down, k)) == (row + k) * cols
  {
    if k > 0 {
      MulMono(row + k - 1, row + k, cols);
      DownRows(row, n, cols, k - 1);
      assert Repeat(Down, k)[..k - 1] == Repeat(Down, k - 1);
      PressFrom(row + k - 1, 0, n, cols);
    }
  }

  lemma Climb(from: nat, to: nat, n: nat, cols: int) returns (keys: seq<Pad>)
    requires cols >= 1 && from * cols < n && to * cols < n
    ensures Walk(from * cols, n, cols, keys) == to * cols
    ensures |keys| == Max(from - to, to - from)
  {
    if to <= from {
      keys := Repeat(Up, from - to);
      UpRows(from, n, cols, from - to);
    } else {
      keys := Repeat(Down, to - from);
      DownRows(from, n, cols, to - from);
    }
  }

  lemma RowAndColumn(i: nat, cols: int)
    requires cols >= 1
    ensures i == i / cols * cols + i % cols && 0 <= i / cols && 0 <= i / cols * cols <= i
  {
    DivAtLeast(i, cols, 0);
    MulNonneg(i / cols, cols);
  }

  lemma Legs(p: int, q: int, r: int, s: int, n: nat, cols: int, a: seq<Pad>, b: seq<Pad>, c: seq<Pad>)
    requires n > 0 && cols >= 1
    requires Walk(p, n, cols, a) == q && Walk(q, n, cols, b) == r && Walk(r, n, cols, c) == s
    ensures Walk(p, n, cols, a + b + c) == s
  {
    WalkAppend(p, n, cols, a, b);
    WalkAppend(p, n, cols, a + b, c);
  }

  /** Left to the edge, along the edge to the row, and right to the column. */
  lemma Route(row: nat, col: nat, toRow: nat, toCol: nat, n: nat, cols: int) returns (keys: seq<Pad>)
    requires cols >= 1 && col < cols && toCol < cols
    requires 0 <= row * cols && row * cols + col < n && 0 <= toRow * cols && toRow * cols + toCol < n
    ensures Walk(row * cols + col, n, cols, keys) == toRow * cols + toCol
    ensures |keys| == col + Max(row - toRow, toRow - row) + toCol
  {
    var left, right := Repeat(Left, col), Repeat(Right, toCol);
    LeftToEdge(row, col, n, cols, col);
    var rows := Climb(row, toRow, n, cols);
    RightFromEdge(toRow, n, cols, toCol);
    Legs(row * cols + col, row * cols, toRow * cols, toRow * cols + toCol, n, cols, left, rows, right);
    keys := left + rows + right;
  }

  /** From every tile the D-pad reaches every other tile, short last row included. */
  lemma EveryTileReachable(i: nat, j: nat, n: nat, cols: int) returns (keys: seq<Pad>)
    requires i < n && j < n && cols >= 1
    ensures Walk(i, n, cols, keys) == j
    ensures |keys| == i % cols + Max(i / cols - j / cols, j / cols - i / cols) + j % cols
  {
    RowAndColumn(i, cols);
    RowAndColumn(j, cols);
    keys := Route(i / cols, i % cols, j / cols, j % cols, n, cols);
  }

  /** The focus the handlers share; entries may come and go between presses. */
  class Launcher {
    var focusedFileIndex: int

    /** A press on an empty list does nothing; on any other list the focus ends up on an entry. */
    method Move(n: nat, p: Panel, dx: int, dy: int)
      modifies this
      ensures n == 0 ==> focusedFileIndex == old(focusedFileIndex)
      ensures n > 0 ==> focusedFileIndex == Moved(old(focusedFileIndex), n, NewLayout(p).cols, dx, dy)
      ensures n > 0 ==> 0 <= focusedFileIndex < n
    {
      if n == 0 { return; }
      if focusedFileIndex < 0 || focusedFileIndex >= n {
        focusedFileIndex := 0;
        return;
      }
      var cols := NewLayout(p).cols;
      var row, col := focusedFileIndex / cols, focusedFileIndex % cols;
      if dy != 0 {
        row := row + dy;
        if row < 0 { row := 0; }
      }
      if dx != 0 {
        col := col + dx;
        if col < 0 { col := 0; }
        if col > cols - 1 { col := cols - 1; }
      }
      var idx := row * cols + col;
      if idx >= n { idx := n - 1; }
      if idx < 0 { idx := 0; }
      if idx != focusedFileIndex { focusedFileIndex := idx; }
    }
  }
}
