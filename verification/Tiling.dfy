/** The number of source reads of the tiled GEMM, and the tiles it visits. */
module Tiling {
  const TILE := 4

  /** Tiles needed to cover `n` rows or columns. */
  function CeilTiles(n: nat): nat {
    (n + TILE - 1) / TILE
  }

  function Min(a: int, b: int): int {
    if a < b then a else b
  }

  datatype Tile = Tile(rowBase: nat, columnBase: nat, rows: nat, columns: nat)

  predicate Covers(t: Tile, row: nat, column: nat) {
    t.rowBase <= row < t.rowBase + t.rows && t.columnBase <= column < t.columnBase + t.columns
  }

  /** How many tiles cover the output (row, column). */
  function CoverCount(tiles: seq<Tile>, row: nat, column: nat): nat {
    if |tiles| == 0 then 0
    else
      var n := |tiles| - 1;
      CoverCount(tiles[..n], row, column) + (if Covers(tiles[n], row, column) then 1 else 0)
  }

  /** The outputs the loops have finished: all columns of the rows below `rowBase`, and the columns below
      `columnBase` of the current band of rows. */
  predicate Before(row: nat, column: nat, rows: nat, columns: nat, rowBase: nat, bandRows: nat, columnBase: nat) {
    column < columns && row < rows && (row < rowBase || (row < rowBase + bandRows && column < columnBase))
  }

  /** Each finished output is covered by exactly one tile, every other position by none. */
  ghost predicate Partitioned(tiles: seq<Tile>, rows: nat, columns: nat, rowBase: nat, bandRows: nat, columnBase: nat) {
    forall row: nat, column: nat ::
      CoverCount(tiles, row, column)
        == if Before(row, column, rows, columns, rowBase, bandRows, columnBase) then 1 else 0
  }

  lemma PartitionNextTile(tiles: seq<Tile>, rows: nat, columns: nat, rowBase: nat, bandRows: nat, columnBase: nat,
                          width: nat)
    requires Partitioned(tiles, rows, columns, rowBase, bandRows, columnBase)
    requires rowBase + bandRows <= rows && columnBase + width <= columns
    ensures Partitioned(tiles + [Tile(rowBase, columnBase, bandRows, width)], rows, columns, rowBase, bandRows,
                        columnBase + width)
  {
    var t := Tile(rowBase, columnBase, bandRows, width);
    assert (tiles + [t])[..|tiles|] == tiles;
    forall row: nat, column: nat
      ensures CoverCount(tiles + [t], row, column)
           == if Before(row, column, rows, columns, rowBase, bandRows, columnBase + width) then 1 else 0
    {
      assert CoverCount(tiles, row, column)
          == if Before(row, column, rows, columns, rowBase, bandRows, columnBase) then 1 else 0;
    }
  }

  lemma PartitionNextBand(tiles: seq<Tile>, rows: nat, columns: nat, rowBase: nat, bandRows: nat, columnBase: nat,
                          nextBand: nat)
    requires Partitioned(tiles, rows, columns, rowBase, bandRows, columnBase) && columnBase >= columns
    ensures Partitioned(tiles, rows, columns, rowBase + bandRows, nextBand, 0)
  {
  }

  /** The reads of one band of `bandRows` rows, over all its tiles. */
  function BandReads(inner: nat, bandRows: nat, columns: nat): nat {
    inner * (bandRows * CeilTiles(columns) + columns)
  }

  lemma TileReads(inner: nat, bandRows: nat, done: nat, width: nat, tiles: nat)
    ensures inner * (bandRows * tiles + done) + inner * (bandRows + width)
         == inner * (bandRows * (tiles + 1) + (done + width))
  {
    var x, y := bandRows * tiles + done, bandRows + width;
    assert inner * x + inner * y == inner * (x + y);
    assert x + y == bandRows * (tiles + 1) + (done + width);
  }

  lemma BandsReads(inner: nat, done: nat, bandRows: nat, bands: nat, columns: nat)
    ensures inner * (done * CeilTiles(columns) + columns * bands) + BandReads(inner, bandRows, columns)
         == inner * ((done + bandRows) * CeilTiles(columns) + columns * (bands + 1))
  {
    var c := CeilTiles(columns);
    var x, y := done * c + columns * bands, bandRows * c + columns;
    assert inner * x + inner * y == inner * (x + y);
    assert (done + bandRows) * c == done * c + bandRows * c;
    assert columns * (bands + 1) == columns * bands + columns;
  }

  /** The inner loop of `expected_read_requests`: the tiles of one band. */
  method BandRequests(rows: nat, columns: nat, inner: nat, rowBase: nat, tileRows: nat, ghost visited: seq<Tile>)
    returns (requests: nat, ghost tiles: seq<Tile>)
    requires rowBase + tileRows <= rows
    requires Partitioned(visited, rows, columns, rowBase, tileRows, 0)
    ensures requests == BandReads(inner, tileRows, columns)
    ensures Partitioned(tiles, rows, columns, rowBase, tileRows, columns)
  {
    requests := 0;
    tiles := visited;
    var columnBase := 0;
    ghost var count := 0;
    while columnBase < columns
      invariant columnBase == TILE * count && count <= CeilTiles(columns)
      invariant requests == inner * (tileRows * count + Min(columnBase, columns))
      invariant Partitioned(tiles, rows, columns, rowBase, tileRows, Min(columnBase, columns))
    {
      var tileColumns := Min(TILE, columns - columnBase);
      TileReads(inner, tileRows, columnBase, tileColumns, count);
      PartitionNextTile(tiles, rows, columns, rowBase, tileRows, columnBase, tileColumns);
      requests := requests + inner * (tileRows + tileColumns);
      tiles := tiles + [Tile(rowBase, columnBase, tileRows, tileColumns)];
      columnBase := columnBase + TILE;
      count := count + 1;
    }
  }

  /** One more band reaches the lesser of its full height and the end; the last one is band `CeilTiles(n)`. */
  lemma NextBand(n: nat, base: nat, bands: nat)
    requires base == TILE * bands && base < n
    ensures bands + 1 <= CeilTiles(n) && Min(base + TILE, n) == base + Min(TILE, n - base)
    ensures base + TILE >= n ==> bands + 1 == CeilTiles(n)
  {
  }

  /** `expected_read_requests`: the loops visit tiles that partition the outputs, and the count they return
      is inner * (rows * ceil(columns / 4) + columns * ceil(rows / 4)). */
  method ExpectedReadRequests(rows: nat, columns: nat, inner: nat) returns (requests: nat, ghost tiles: seq<Tile>)
    ensures requests == inner * (rows * CeilTiles(columns) + columns * CeilTiles(rows))
    ensures forall row: nat, column: nat ::
      CoverCount(tiles, row, column) == if row < rows && column < columns then 1 else 0
  {
    requests := 0;
    tiles := [];
    var rowBase := 0;
    ghost var bands := 0;
    while rowBase < rows
      invariant rowBase == TILE * bands && (rowBase >= rows ==> bands == CeilTiles(rows))
      invariant requests == inner * (Min(rowBase, rows) * CeilTiles(columns) + columns * bands)
      invariant Partitioned(tiles, rows, columns, Min(rowBase, rows), Min(TILE, rows - Min(rowBase, rows)), 0)
    {
      var tileRows := Min(TILE, rows - rowBase);
      NextBand(rows, rowBase, bands);
      var bandRequests;
      ghost var before := tiles;
      bandRequests, tiles := BandRequests(rows, columns, inner, rowBase, tileRows, before);
      BandsReads(inner, rowBase, tileRows, bands, columns);
      PartitionNextBand(tiles, rows, columns, rowBase, tileRows, columns, Min(TILE, rows - Min(rowBase + TILE, rows)));
      requests := requests + bandRequests;
      rowBase := rowBase + TILE;
      bands := bands + 1;
    }
  }

  lemma CeilAtMost(n: nat)
    requires n > 0
    ensures CeilTiles(n) <= n && (CeilTiles(n) == n <==> n == 1)
  {
  }

  lemma MulAtMost(m: nat, a: nat, b: nat)
    requires m > 0 && a <= b
    ensures m * a <= m * b && (m * a == m * b <==> a == b)
  {
  }

  /** Tile reuse never reads more than the naive 2 * rows * columns * inner, and reads as much only for a
      single output. */
  lemma TilingReducesReads(rows: nat, columns: nat, inner: nat)
    requires rows > 0 && columns > 0 && inner > 0
    ensures var tiled := inner * (rows * CeilTiles(columns) + columns * CeilTiles(rows));
      var naive := inner * (2 * (rows * columns));
      tiled <= naive && (tiled == naive <==> rows == 1 && columns == 1)
  {
    var x, y := rows * CeilTiles(columns), columns * CeilTiles(rows);
    BandsAtMost(rows, columns);
    BandsAtMost(columns, rows);
    MulAtMost(inner, x + y, 2 * (rows * columns));
  }

  lemma BandsAtMost(m: nat, n: nat)
    requires m > 0 && n > 0
    ensures m * CeilTiles(n) <= m * n && (m * CeilTiles(n) == m * n <==> n == 1)
    ensures m * n == n * m
  {
    CeilAtMost(n);
    MulAtMost(m, CeilTiles(n), n);
  }
}
