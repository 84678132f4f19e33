/**
 The row-height rule of `InvoicePDF.add_table`: every data cell is given as
 many lines as its text needs at its column's width, and the whole row is
 drawn at the height of its tallest cell. Text widths come from font metrics
 and are taken as given.
 */
module TableLayout {
  import opened Wrappers

  /** Widths of the four table columns. */
  const ColumnWidths: seq<nat> := [80, 25, 40, 40]
  /** Height of one line of text in a data cell. */
  const LineHeight := 6

  function Min(a: int, b: int): int {
    if a < b then a else b
  }

  /** `zip(a, b)`: pairs of elements at equal positions, as long as the shorter sequence. */
  function Zip<A, B>(a: seq<A>, b: seq<B>): (r: seq<(A, B)>)
    ensures |r| == Min(|a|, |b|)
    ensures forall i :: 0 <= i < |r| ==> r[i] == (a[i], b[i])
  {
    if a == [] || b == [] then [] else [(a[0], b[0])] + Zip(a[1..], b[1..])
  }

  /** The header row: each label with its column width; labels past the fourth are not drawn. */
  function HeaderCells(header: seq<string>): (cells: seq<(string, nat)>)
    ensures |cells| == Min(|header|, 4)
    ensures forall i :: 0 <= i < |cells| ==> cells[i].0 == header[i] && cells[i].1 == ColumnWidths[i]
  {
    Zip(header, ColumnWidths)
  }

  /**
   `max(1, int(text_width / col_width) + 1)`: the fewest lines of the column's
   width that hold the text when a text exactly as wide as k lines starts a
   (k+1)-th one.
   */
  function LineCount(textWidth: nat, colWidth: nat): (n: nat)
    requires colWidth > 0
    ensures n >= 1
    ensures (n - 1) * colWidth <= textWidth < n * colWidth
  {
    var q := textWidth / colWidth;
    assert textWidth == q * colWidth + textWidth % colWidth;
    if q + 1 < 1 then 1 else q + 1
  }

  function CellHeight(textWidth: nat, colWidth: nat): (h: nat)
    requires colWidth > 0
    ensures h >= LineHeight && h % LineHeight == 0
  {
    LineCount(textWidth, colWidth) * LineHeight
  }

  /** `max(values)` of a non-empty list. */
  function MaxOf(values: seq<nat>): (m: nat)
    requires |values| > 0
    ensures m in values
    ensures forall i :: 0 <= i < |values| ==> values[i] <= m
  {
    if |values| == 1 then values[0]
    else
      var rest := MaxOf(values[1..]);
      if values[0] < rest then rest else values[0]
  }

  /**
   The first pass over one data row: the height of each cell that `zip`
   pairs with a column width, then the tallest of them. The row must have
   its four cells (the total computed just before reads `row[1]` and
   `row[2]` and writes `row[3]`), otherwise IndexError.
   */
  method RowHeight(textWidths: seq<nat>) returns (r: Result<nat>)
    ensures r.Err? <==> |textWidths| < 4
    ensures r.Err? ==> r.error == IndexError
    ensures r.Ok? ==> r.value >= LineHeight && r.value % LineHeight == 0
    ensures r.Ok? ==> forall i :: 0 <= i < 4 ==> CellHeight(textWidths[i], ColumnWidths[i]) <= r.value
    ensures r.Ok? ==> exists i :: 0 <= i < 4 && r.value == CellHeight(textWidths[i], ColumnWidths[i])
  {
    if |textWidths| < 4 {
      return Err(IndexError);
    }
    var cells := Zip(textWidths, ColumnWidths);
    var cellHeights: seq<nat> := [];
    for i := 0 to |cells|
      invariant |cellHeights| == i
      invariant forall j :: 0 <= j < i ==> cellHeights[j] == CellHeight(textWidths[j], ColumnWidths[j])
    {
      var (textWidth, colWidth) := cells[i];
      var numLines := LineCount(textWidth, colWidth);
      cellHeights := cellHeights + [numLines * LineHeight];
    }
    var maxRowHeight := MaxOf(cellHeights);
    r := Ok(maxRowHeight);
  }
}
