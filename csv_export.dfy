/**
 * Graph export to CSV: one column per (graph kind, named entity) pair,
 * grouped by kind in a fixed order, then a header record of the column
 * names and one record per row index until every column is exhausted.
 * The file writer is left out: the model produces the records.
 */
module CsvExport {
  import opened Wrappers
  import opened Graphs

  /** What the export reads of one entity: its name, if any, and the buffer of each graph it carries. */
  datatype GraphedEntity = GraphedEntity(name: Option<string>, graphs: map<GraphKind, seq<Point>>)

  datatype Column = Column(name: string, data: seq<real>)

  /** The order in which the graph kinds contribute their columns. */
  const CsvOrder: seq<GraphKind> := [Speed, Rot, XPos, YPos, XVel, YVel, RotVel]

  /** Whether an entity has a column for kind `k`: it must be named and carry that graph. */
  predicate HasColumn(e: GraphedEntity, k: GraphKind) {
    e.name.Some? && k in e.graphs
  }

  /** The column of a named entity's graph: "<entity> <graph>", and the values in buffer order. */
  function ColumnOf(e: GraphedEntity, k: GraphKind): (c: Column)
    requires HasColumn(e, k)
    ensures c.name == e.name.value + " " + GraphName(k)
    ensures |c.data| == |e.graphs[k]|
    ensures forall i :: 0 <= i < |c.data| ==> c.data[i] == e.graphs[k][i].y
  {
    Column(e.name.value + " " + GraphName(k), Ys(e.graphs[k]))
  }

  /** One entity never gets two columns of the same name: the graph names differ. */
  lemma ColumnNamesDiffer(e: GraphedEntity, k1: GraphKind, k2: GraphKind)
    requires HasColumn(e, k1) && HasColumn(e, k2) && k1 != k2
    ensures ColumnOf(e, k1).name != ColumnOf(e, k2).name
  {
    var prefix := e.name.value + " ";
    GraphNamesDistinct(k1, k2);
    assert ColumnOf(e, k1).name[|prefix|..] == GraphName(k1);
    assert ColumnOf(e, k2).name[|prefix|..] == GraphName(k2);
  }

  /** The columns of one kind, in entity order. */
  function KindColumns(ents: seq<GraphedEntity>, k: GraphKind): seq<Column> {
    if ents == [] then []
    else
      var last := ents[|ents| - 1];
      KindColumns(ents[..|ents| - 1], k) + (if HasColumn(last, k) then [ColumnOf(last, k)] else [])
  }

  /** The columns of several kinds, kind after kind. */
  function ColumnsOf(kinds: seq<GraphKind>, ents: seq<GraphedEntity>): seq<Column> {
    if kinds == [] then []
    else ColumnsOf(kinds[..|kinds| - 1], ents) + KindColumns(ents, kinds[|kinds| - 1])
  }

  function Columns(ents: seq<GraphedEntity>): seq<Column> {
    ColumnsOf(CsvOrder, ents)
  }

  /** A column of a kind is exactly the column of an entity that is named and carries that graph. */
  lemma {:induction false} KindColumnsMembers(ents: seq<GraphedEntity>, k: GraphKind, c: Column)
    ensures c in KindColumns(ents, k) <==> exists i :: 0 <= i < |ents| && HasColumn(ents[i], k) && c == ColumnOf(ents[i], k)
  {
    if ents != [] {
      var init := ents[..|ents| - 1];
      KindColumnsMembers(init, k, c);
      assert forall i :: 0 <= i < |init| ==> init[i] == ents[i];
      if c in KindColumns(ents, k) && c !in KindColumns(init, k) {
        assert c == ColumnOf(ents[|ents| - 1], k);
      }
    }
  }

  /** One column per entity that is named and carries the graph: later entities come later. */
  lemma {:induction false} KindColumnsCount(ents: seq<GraphedEntity>, k: GraphKind)
    ensures |KindColumns(ents, k)| <= |ents|
    ensures (forall i :: 0 <= i < |ents| ==> HasColumn(ents[i], k)) ==> |KindColumns(ents, k)| == |ents|
    ensures (forall i :: 0 <= i < |ents| ==> !HasColumn(ents[i], k)) ==> KindColumns(ents, k) == []
  {
    if ents != [] {
      var init := ents[..|ents| - 1];
      KindColumnsCount(init, k);
      assert forall i :: 0 <= i < |init| ==> init[i] == ents[i];
    }
  }

  /** The columns are grouped by kind: speed, rotation, x and y position, x and y velocity, rotational velocity. */
  lemma ColumnsGrouped(ents: seq<GraphedEntity>)
    ensures Columns(ents) ==
      KindColumns(ents, Speed) + KindColumns(ents, Rot) + KindColumns(ents, XPos) + KindColumns(ents, YPos)
      + KindColumns(ents, XVel) + KindColumns(ents, YVel) + KindColumns(ents, RotVel)
  {
    var o := CsvOrder;
    assert o[..6] == [Speed, Rot, XPos, YPos, XVel, YVel];
    assert o[..6][..5] == [Speed, Rot, XPos, YPos, XVel];
    assert o[..6][..5][..4] == [Speed, Rot, XPos, YPos];
    assert o[..6][..5][..4][..3] == [Speed, Rot, XPos];
    assert o[..6][..5][..4][..3][..2] == [Speed, Rot];
    assert o[..6][..5][..4][..3][..2][..1] == [Speed];
    assert [Speed][..0] == [];
    assert ColumnsOf([Speed], ents) == KindColumns(ents, Speed);
    assert ColumnsOf([Speed, Rot], ents) == ColumnsOf([Speed], ents) + KindColumns(ents, Rot);
    assert ColumnsOf([Speed, Rot, XPos], ents) == ColumnsOf([Speed, Rot], ents) + KindColumns(ents, XPos);
    assert ColumnsOf([Speed, Rot, XPos, YPos], ents) == ColumnsOf([Speed, Rot, XPos], ents) + KindColumns(ents, YPos);
    assert ColumnsOf([Speed, Rot, XPos, YPos, XVel], ents) ==
      ColumnsOf([Speed, Rot, XPos, YPos], ents) + KindColumns(ents, XVel);
    assert ColumnsOf([Speed, Rot, XPos, YPos, XVel, YVel], ents) ==
      ColumnsOf([Speed, Rot, XPos, YPos, XVel], ents) + KindColumns(ents, YVel);
    assert ColumnsOf(o, ents) == ColumnsOf([Speed, Rot, XPos, YPos, XVel, YVel], ents) + KindColumns(ents, RotVel);
  }

  /** The columns, kind by kind and, within a kind, entity by entity. */
  method BuildColumns(ents: seq<GraphedEntity>) returns (columns: seq<Column>)
    ensures columns == Columns(ents)
  {
    columns := [];
    var n := 0;
    while n < |CsvOrder|
      invariant 0 <= n <= |CsvOrder|
      invariant columns == ColumnsOf(CsvOrder[..n], ents)
    {
      var k := CsvOrder[n];
      var i := 0;
      ghost var before := columns;
      while i < |ents|
        invariant 0 <= i <= |ents|
        invariant columns == before + KindColumns(ents[..i], k)
      {
        var e := ents[i];
        assert ents[..i + 1][..i] == ents[..i];
        if HasColumn(e, k) {
          columns := columns + [ColumnOf(e, k)];
        }
        i := i + 1;
      }
      assert ents[..i] == ents;
      assert CsvOrder[..n + 1][..n] == CsvOrder[..n];
      n := n + 1;
    }
    assert CsvOrder[..n] == CsvOrder;
  }

  /** The header record: the column names in column order. */
  function Header(cols: seq<Column>): (h: seq<string>)
    ensures |h| == |cols|
    ensures forall j :: 0 <= j < |cols| ==> h[j] == cols[j].name
  {
    seq(|cols|, j requires 0 <= j < |cols| => cols[j].name)
  }

  /** The length of the longest column; zero without columns. */
  function MaxLen(cols: seq<Column>): (m: nat)
    ensures forall j :: 0 <= j < |cols| ==> |cols[j].data| <= m
    ensures cols == [] ==> m == 0
    ensures cols != [] ==> exists j :: 0 <= j < |cols| && |cols[j].data| == m
  {
    if cols == [] then 0
    else
      var rest := MaxLen(cols[..|cols| - 1]);
      var last := |cols[|cols| - 1].data|;
      assert forall j :: 0 <= j < |cols| - 1 ==> cols[..|cols| - 1][j] == cols[j];
      if last > rest then last else rest
  }

  /** One cell: the formatted value, or empty text once the column is exhausted. */
  function Cell(col: Column, i: nat, fmt: real -> string): string {
    if i < |col.data| then fmt(col.data[i]) else ""
  }

  /** The record at row index `i`: one cell per column. */
  function Row(cols: seq<Column>, i: nat, fmt: real -> string): (r: seq<string>)
    ensures |r| == |cols|
    ensures forall j :: 0 <= j < |cols| ==> r[j] == Cell(cols[j], i, fmt)
  {
    seq(|cols|, j requires 0 <= j < |cols| => Cell(cols[j], i, fmt))
  }

  /** Whether every cell of a record is empty text. */
  predicate Blank(record: seq<string>) {
    forall j :: 0 <= j < |record| ==> record[j] == ""
  }

  /** The data records: one per row index below the longest column's length. */
  function Rows(cols: seq<Column>, fmt: real -> string): (rows: seq<seq<string>>)
    ensures |rows| == MaxLen(cols)
    ensures forall i :: 0 <= i < |rows| ==> rows[i] == Row(cols, i, fmt)
  {
    seq(MaxLen(cols), i requires 0 <= i < MaxLen(cols) => Row(cols, i, fmt))
  }

  /**
   * Since the number format never yields empty text, a row index is blank
   * exactly when every column is exhausted there: the data records are the
   * non-blank prefix, and the first blank row is where writing stops.
   */
  lemma BlankIff(cols: seq<Column>, i: nat, fmt: real -> string)
    requires forall v :: fmt(v) != ""
    ensures Blank(Row(cols, i, fmt)) <==> i >= MaxLen(cols)
  {
    if !Blank(Row(cols, i, fmt)) {
      var j :| 0 <= j < |cols| && Row(cols, i, fmt)[j] != "";
      assert i < |cols[j].data|;
    }
    if i < MaxLen(cols) {
      var j :| 0 <= j < |cols| && |cols[j].data| == MaxLen(cols);
      var v := cols[j].data[i];
      assert fmt(v) != "";
      assert Row(cols, i, fmt)[j] == fmt(v);
    }
  }

  /** One record: each column's cursor yields its next value, formatted, or empty text once exhausted. */
  method Record(cols: seq<Column>, i: nat, fmt: real -> string) returns (record: seq<string>)
    ensures record == Row(cols, i, fmt)
  {
    record := [];
    var j := 0;
    while j < |cols|
      invariant 0 <= j <= |cols|
      invariant record == Row(cols, i, fmt)[..j]
    {
      var cell := if i < |cols[j].data| then fmt(cols[j].data[i]) else "";
      record := record + [cell];
      j := j + 1;
    }
  }

  /** The first `i + 1` data records are the first `i` and then record `i`. */
  lemma RowsStep(cols: seq<Column>, fmt: real -> string, i: nat)
    requires i < MaxLen(cols)
    ensures Rows(cols, fmt)[..i + 1] == Rows(cols, fmt)[..i] + [Row(cols, i, fmt)]
  {
    var rows := Rows(cols, fmt);
    assert rows[..i + 1] == rows[..i] + [rows[i]];
  }

  /**
   * The data records: the per-column cursors advance together, one record
   * per step, until a step yields nothing but empty cells.
   */
  method Records(cols: seq<Column>, fmt: real -> string) returns (rows: seq<seq<string>>)
    requires forall v :: fmt(v) != ""
    ensures rows == Rows(cols, fmt)
  {
    rows := [];
    var i := 0;
    while true
      invariant 0 <= i <= MaxLen(cols)
      invariant rows == Rows(cols, fmt)[..i]
      decreases MaxLen(cols) - i
    {
      var record := Record(cols, i, fmt);
      BlankIff(cols, i, fmt);
      if Blank(record) {
        break;
      }
      RowsStep(cols, fmt, i);
      rows := rows + [record];
      i := i + 1;
    }
    assert Rows(cols, fmt)[..i] == Rows(cols, fmt);
  }

  /** Exporting the graphs: the header record, then the data records. */
  method SerializeGraphs(ents: seq<GraphedEntity>, fmt: real -> string) returns (records: seq<seq<string>>)
    requires forall v :: fmt(v) != ""
    ensures records == [Header(Columns(ents))] + Rows(Columns(ents), fmt)
  {
    var columns := BuildColumns(ents);
    var names := Header(columns);
    var rows := Records(columns, fmt);
    records := [names] + rows;
  }
}
