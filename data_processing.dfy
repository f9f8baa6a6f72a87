/** The server-side shaping of the two spreadsheet tables (data_processing.py):
    the limma results become volcano points, and the per-sample values of one
    gene become the two boxplot groups. Reading the workbook is not modelled:
    a sheet is given as a value. */
module DataProcessing {
  import opened Seqs
  import opened Text
  import opened Api

  /** One row of the "S4B limma results" sheet, reduced to the three columns
      the volcano data reads. */
  datatype LimmaRow = LimmaRow(entrezGeneSymbol: string, logFC: real, adjPVal: real)

  /** One row of the "S4A values" sheet: its `EntrezGeneSymbol` cell, and its
      other cells in the order of the table's `columns`. */
  datatype ValuesRow = ValuesRow(entrezGeneSymbol: string, cells: seq<real>)

  /** The "S4A values" sheet: the column names other than `EntrezGeneSymbol`,
      and the rows. */
  datatype ValuesTable = ValuesTable(columns: seq<string>, rows: seq<ValuesRow>)

  /** What a loaded sheet always satisfies: every row has one cell per column,
      and column names are distinct (the spreadsheet reader renames repeated
      headers). */
  predicate WellFormed(t: ValuesTable) {
    Distinct(t.columns) &&
    forall row :: row in t.rows ==> |row.cells| == |t.columns|
  }

  /** An adjusted p-value below this is significant. */
  const PValueCutoff: real := 0.05
  /** A log2 fold change whose magnitude exceeds this is significant. */
  const FoldChangeCutoff: real := 1.0

  function Abs(x: real): real {
    if x < 0.0 then -x else x
  }

  /** The volcano point of one limma row; `negLog10` stands for numpy's
      `-log10`, which the model does not compute. */
  function PointOf(row: LimmaRow, negLog10: real -> real): (p: VolcanoPoint)
    ensures p.geneSymbol == row.entrezGeneSymbol
    ensures p.logFC == row.logFC && p.negLog10PVal == negLog10(row.adjPVal)
    ensures p.significant <==>
              row.adjPVal < 0.05 && (row.logFC > 1.0 || row.logFC < -1.0)
  {
    VolcanoPoint(
      row.entrezGeneSymbol,
      row.logFC,
      negLog10(row.adjPVal),
      row.adjPVal < PValueCutoff && Abs(row.logFC) > FoldChangeCutoff)
  }

  /** `prepare_volcano_data`: one point per row, in row order. */
  method PrepareVolcanoData(limma: seq<LimmaRow>, negLog10: real -> real)
    returns (points: seq<VolcanoPoint>)
    ensures |points| == |limma|
    ensures forall i :: 0 <= i < |limma| ==> points[i] == PointOf(limma[i], negLog10)
  {
    points := [];
    for i := 0 to |limma|
      invariant |points| == i
      invariant forall k :: 0 <= k < i ==> points[k] == PointOf(limma[k], negLog10)
    {
      points := points + [PointOf(limma[i], negLog10)];
    }
  }

  predicate IsSampleColumn(name: string) {
    StartsWith(name, "Set")
  }

  predicate IsYoungColumn(name: string) {
    Contains(name, "YD")
  }

  predicate IsOldColumn(name: string) {
    Contains(name, "OD")
  }

  /** `sample_cols`: the columns whose names start with `Set`. */
  function SampleColumns(columns: seq<string>): seq<string> {
    Filter(columns, IsSampleColumn)
  }

  /** `young_cols`: the sample columns whose names contain `YD`. */
  function YoungColumns(columns: seq<string>): seq<string> {
    Filter(SampleColumns(columns), IsYoungColumn)
  }

  /** `old_cols`: the sample columns whose names contain `OD`. */
  function OldColumns(columns: seq<string>): seq<string> {
    Filter(SampleColumns(columns), IsOldColumn)
  }

  /** A `Set...` column containing `YD`. */
  predicate IsYoungSampleColumn(name: string) {
    IsSampleColumn(name) && IsYoungColumn(name)
  }

  /** A `Set...` column containing `OD`. */
  predicate IsOldSampleColumn(name: string) {
    IsSampleColumn(name) && IsOldColumn(name)
  }

  /** The sample columns are exactly the columns named `Set...`, and they
      keep the table's column order. */
  lemma SampleColumnsAreSetColumns(columns: seq<string>)
    requires Distinct(columns)
    ensures forall c :: c in SampleColumns(columns) <==> c in columns && StartsWith(c, "Set")
    ensures forall i, j :: 0 <= i < j < |SampleColumns(columns)| ==>
              IndexOf(columns, SampleColumns(columns)[i]) < IndexOf(columns, SampleColumns(columns)[j])
  {
  }

  /** Young columns are the `Set...` columns containing `YD`, old columns those
      containing `OD`; a column containing both lands in both groups. */
  lemma GroupColumnMembership(columns: seq<string>, c: string)
    ensures c in YoungColumns(columns) <==> c in columns && StartsWith(c, "Set") && Contains(c, "YD")
    ensures c in OldColumns(columns) <==> c in columns && StartsWith(c, "Set") && Contains(c, "OD")
  {
    if c in columns && StartsWith(c, "Set") {
      FilterKeeps(columns, IsSampleColumn, c);
      if Contains(c, "YD") { FilterKeeps(SampleColumns(columns), IsYoungColumn, c); }
      if Contains(c, "OD") { FilterKeeps(SampleColumns(columns), IsOldColumn, c); }
    }
  }

  /** The young and the old columns each keep the table's column order, so a
      group's values come column by column in sheet order. */
  lemma GroupColumnsKeepOrder(columns: seq<string>, young: bool, i: nat, j: nat)
    requires Distinct(columns)
    requires i < j < |GroupColumns(columns, young)|
    ensures IndexOf(columns, GroupColumns(columns, young)[i]) < IndexOf(columns, GroupColumns(columns, young)[j])
  {
    if young {
      FilterFilter(columns, IsSampleColumn, IsYoungColumn, IsYoungSampleColumn);
      FilterKeepsOrder(columns, IsYoungSampleColumn, i, j);
    } else {
      FilterFilter(columns, IsSampleColumn, IsOldColumn, IsOldSampleColumn);
      FilterKeepsOrder(columns, IsOldSampleColumn, i, j);
    }
  }

  /** `row[names]`: the row's cells under the named columns, in the order of `names`. */
  function Select(columns: seq<string>, row: ValuesRow, names: seq<string>): (r: seq<real>)
    requires |row.cells| == |columns|
    requires forall n :: n in names ==> n in columns
    ensures |r| == |names|
    ensures forall k :: 0 <= k < |names| ==> r[k] == row.cells[IndexOf(columns, names[k])]
  {
    if names == [] then []
    else [row.cells[IndexOf(columns, names[0])]] + Select(columns, row, names[1..])
  }

  /** `rows[names].values.flatten()`: the selected cells, row after row. */
  function Flatten(columns: seq<string>, rows: seq<ValuesRow>, names: seq<string>): (r: seq<real>)
    requires forall row :: row in rows ==> |row.cells| == |columns|
    requires forall n :: n in names ==> n in columns
  {
    if rows == [] then []
    else Select(columns, rows[0], names) + Flatten(columns, rows[1..], names)
  }

  /** One value per (row, column) pair. */
  lemma {:induction false} FlattenLength(columns: seq<string>, rows: seq<ValuesRow>, names: seq<string>)
    requires forall row :: row in rows ==> |row.cells| == |columns|
    requires forall n :: n in names ==> n in columns
    ensures |Flatten(columns, rows, names)| == |rows| * |names|
  {
    if rows != [] {
      FlattenLength(columns, rows[1..], names);
      MulSucc(|rows| - 1, |names|);
    }
  }

  lemma MulSucc(a: nat, n: nat)
    ensures (a + 1) * n == a * n + n
  {
  }

  /** Flattening distributes over concatenation of row lists. */
  lemma {:induction false} FlattenConcat(columns: seq<string>, a: seq<ValuesRow>, b: seq<ValuesRow>, names: seq<string>)
    requires forall row :: row in a ==> |row.cells| == |columns|
    requires forall row :: row in b ==> |row.cells| == |columns|
    requires forall n :: n in names ==> n in columns
    ensures Flatten(columns, a + b, names) == Flatten(columns, a, names) + Flatten(columns, b, names)
  {
    if a == [] {
      assert a + b == b;
    } else {
      assert (a + b)[0] == a[0];
      assert (a + b)[1..] == a[1..] + b;
      FlattenConcat(columns, a[1..], b, names);
    }
  }

  /** The flattening keeps rows apart: row `i`'s selected cells sit between
      those of the rows before it and those of the rows after it. */
  lemma FlattenSplit(columns: seq<string>, rows: seq<ValuesRow>, names: seq<string>, i: nat)
    requires forall row :: row in rows ==> |row.cells| == |columns|
    requires forall n :: n in names ==> n in columns
    requires i < |rows|
    ensures Flatten(columns, rows, names) ==
            Flatten(columns, rows[..i], names) + Select(columns, rows[i], names) + Flatten(columns, rows[i + 1..], names)
  {
    var before, after := rows[..i], rows[i..];
    assert rows == before + after;
    FlattenConcat(columns, before, after, names);
    assert after[0] == rows[i] && after[1..] == rows[i + 1..];
  }

  /** The flattening is row-major: entry `i * |names| + k` is row `i`'s cell
      under column `names[k]`. */
  lemma FlattenAt(columns: seq<string>, rows: seq<ValuesRow>, names: seq<string>, i: nat, k: nat)
    requires forall row :: row in rows ==> |row.cells| == |columns|
    requires forall n :: n in names ==> n in columns
    requires i < |rows| && k < |names|
    ensures i * |names| + k < |Flatten(columns, rows, names)|
    ensures Flatten(columns, rows, names)[i * |names| + k] == rows[i].cells[IndexOf(columns, names[k])]
  {
    FlattenSplit(columns, rows, names, i);
    var before := Flatten(columns, rows[..i], names);
    FlattenLength(columns, rows[..i], names);
    var f := Flatten(columns, rows, names);
    assert f[|before| + k] == Select(columns, rows[i], names)[k];
  }

  /** The row filter `values_df['EntrezGeneSymbol'] == gene_symbol`. */
  function HasSymbol(symbol: string): ValuesRow -> bool {
    (row: ValuesRow) => row.entrezGeneSymbol == symbol
  }

  /** The rows of gene `symbol`, in sheet order. */
  function MatchingRows(t: ValuesTable, symbol: string): (rows: seq<ValuesRow>)
    ensures forall row :: row in rows ==> row in t.rows && row.entrezGeneSymbol == symbol
  {
    Filter(t.rows, HasSymbol(symbol))
  }

  /** No row of the gene is dropped: each occurs among the matches as often
      as in the sheet. */
  lemma MatchingRowsComplete(t: ValuesTable, symbol: string, row: ValuesRow)
    requires row in t.rows && row.entrezGeneSymbol == symbol
    ensures multiset(MatchingRows(t, symbol))[row] == multiset(t.rows)[row]
  {
    FilterPartition(t.rows, HasSymbol(symbol), LacksSymbol(symbol));
    assert row !in Filter(t.rows, LacksSymbol(symbol));
  }

  /** The complement of `HasSymbol`. */
  function LacksSymbol(symbol: string): ValuesRow -> bool {
    (row: ValuesRow) => row.entrezGeneSymbol != symbol
  }

  /** The mask keeps sheet order: the matches in rows `a` then `b` are the
      matches in `a` followed by the matches in `b`. */
  lemma MatchingRowsConcat(columns: seq<string>, a: seq<ValuesRow>, b: seq<ValuesRow>, symbol: string)
    ensures MatchingRows(ValuesTable(columns, a + b), symbol) ==
            MatchingRows(ValuesTable(columns, a), symbol) + MatchingRows(ValuesTable(columns, b), symbol)
  {
    FilterConcat(a, b, HasSymbol(symbol));
  }

  /** `prepare_boxplot_data`: an error record for an unknown symbol, otherwise
      the young and old values of every matching row. */
  function PrepareBoxplotData(t: ValuesTable, symbol: string): (r: BoxplotResponse)
    requires WellFormed(t)
    ensures r.BoxplotError? <==> forall row :: row in t.rows ==> row.entrezGeneSymbol != symbol
    ensures r.BoxplotError? ==> r.error == "Gene " + symbol + " not found"
    ensures r.Boxplot? ==> r.geneSymbol == symbol && r.youngGroup.group == "Young" && r.oldGroup.group == "Old"
  {
    FilterEmpty(t.rows, HasSymbol(symbol));
    var rows := MatchingRows(t, symbol);
    if rows == [] then
      BoxplotError("Gene " + symbol + " not found")
    else
      Boxplot(
        symbol,
        Group("Young", Flatten(t.columns, rows, YoungColumns(t.columns))),
        Group("Old", Flatten(t.columns, rows, OldColumns(t.columns))))
  }

  /** The sample columns of one group. */
  function GroupColumns(columns: seq<string>, young: bool): (names: seq<string>)
    ensures forall n :: n in names ==> n in columns
  {
    if young then YoungColumns(columns) else OldColumns(columns)
  }

  /** The values of the young or the old group of a boxplot record. */
  function GroupValues(r: BoxplotResponse, young: bool): seq<real>
    requires r.Boxplot?
  {
    if young then r.youngGroup.values else r.oldGroup.values
  }

  /** A group holds one value per (matching row, group column) pair. */
  lemma BoxplotValuesLength(t: ValuesTable, symbol: string, young: bool)
    requires WellFormed(t)
    requires PrepareBoxplotData(t, symbol).Boxplot?
    ensures |GroupValues(PrepareBoxplotData(t, symbol), young)| ==
            |MatchingRows(t, symbol)| * |GroupColumns(t.columns, young)|
  {
    var rows, names := MatchingRows(t, symbol), GroupColumns(t.columns, young);
    assert GroupValues(PrepareBoxplotData(t, symbol), young) == Flatten(t.columns, rows, names);
    FlattenLength(t.columns, rows, names);
  }

  /** The group values are row-major: entry `i * |group columns| + k` is the
      `i`-th matching row's cell under the `k`-th column of the group. */
  lemma BoxplotValueAt(t: ValuesTable, symbol: string, young: bool,
                       values: seq<real>, rows: seq<ValuesRow>, names: seq<string>, i: nat, k: nat)
    requires WellFormed(t)
    requires PrepareBoxplotData(t, symbol).Boxplot?
    requires values == GroupValues(PrepareBoxplotData(t, symbol), young)
    requires rows == MatchingRows(t, symbol) && names == GroupColumns(t.columns, young)
    requires i < |rows| && k < |names|
    ensures rows[i].entrezGeneSymbol == symbol
    ensures i * |names| + k < |values|
    ensures values[i * |names| + k] == rows[i].cells[IndexOf(t.columns, names[k])]
  {
    assert GroupValues(PrepareBoxplotData(t, symbol), young) == Flatten(t.columns, rows, names);
    assert rows[i] in rows;
    FlattenAt(t.columns, rows, names, i, k);
  }
}
