/**
 * The tabular interchange files as `csv.writer` writes them and
 * `csv.DictReader` reads them. A file is its list of rows; quoting and
 * escaping are the csv library's concern and are not modelled.
 */
module Csv {
  import opened Wrappers
  import Seqs

  type Row = seq<string>

  /** What `row[name]` gives on a row produced by csv.DictReader. */
  datatype Field =
    | NoColumn            // the header has no such column: KeyError
    | NoValue             // the row is shorter than the header: the reader's restval, None
    | Value(text: string)

  /** The last column of `header` called `name`. */
  function LastIndex(header: Row, name: string): (r: Option<nat>)
    ensures r.None? <==> name !in header
    ensures r.Some? ==> r.value < |header| && header[r.value] == name
    ensures r.Some? ==> forall j :: r.value < j < |header| ==> header[j] != name
    decreases |header|
  {
    if header == [] then None
    else if header[|header| - 1] == name then Some(|header| - 1)
    else
      assert forall x :: x in header[..|header| - 1] ==> x in header;
      assert name in header ==> name in header[..|header| - 1] by {
        if name in header {
          var k :| 0 <= k < |header| && header[k] == name;
          assert header[..|header| - 1][k] == name;
        }
      }
      LastIndex(header[..|header| - 1], name)
  }

  /**
   * `row[name]` on a DictReader row: the reader pairs header and row cell by
   * cell into a dict, so a repeated column name keeps its last cell, and a
   * column past the end of the row gets None.
   */
  function Lookup(header: Row, row: Row, name: string): (f: Field)
    ensures f.NoColumn? <==> name !in header
  {
    match LastIndex(header, name)
    case None => NoColumn
    case Some(i) => if i < |row| then Value(row[i]) else NoValue
  }

  /** The cell of the last column called `name`, when the row reaches that far. */
  lemma LookupAt(header: Row, row: Row, name: string, i: nat)
    requires i < |header| && i < |row| && header[i] == name
    requires forall j :: i < j < |header| ==> header[j] != name
    ensures Lookup(header, row, name) == Value(row[i])
  {
  }

  predicate NonBlank(row: Row) { row != [] }

  /** The header is the first row of the file; an empty file has none. */
  function Header(table: seq<Row>): Row {
    if table == [] then [] else table[0]
  }

  /** The rows after the header that DictReader yields: it skips blank lines. */
  function DataRows(table: seq<Row>): (rows: seq<Row>)
    ensures forall row :: row in rows ==> row != []
    ensures table != [] ==> forall row :: row in rows <==> row in table[1..] && row != []
  {
    if table == [] then []
    else
      Seqs.FilterMembers(table[1..], NonBlank);
      Seqs.Filter(table[1..], NonBlank)
  }

  /** `writer.writerow(header)` and then one `writer.writerow(...)` per record, in order. */
  function Write<T>(header: Row, xs: seq<T>, toRow: T -> Row): (t: seq<Row>)
    ensures |t| == |xs| + 1 && t[0] == header
    ensures forall i :: 0 <= i < |xs| ==> t[i + 1] == toRow(xs[i])
    decreases |xs|
  {
    if xs == [] then [header]
    else Write(header, xs[..|xs| - 1], toRow) + [toRow(xs[|xs| - 1])]
  }

  /** Reading back a written file: the header, then exactly the records' rows (none of them blank). */
  lemma {:induction false} ReadWritten<T>(header: Row, xs: seq<T>, toRow: T -> Row)
    requires forall x :: x in xs ==> toRow(x) != []
    ensures Header(Write(header, xs, toRow)) == header
    ensures |DataRows(Write(header, xs, toRow))| == |xs|
    ensures forall i :: 0 <= i < |xs| ==> DataRows(Write(header, xs, toRow))[i] == toRow(xs[i])
  {
    var t := Write(header, xs, toRow);
    forall row | row in t[1..] ensures NonBlank(row) {
      var k :| 0 <= k < |t[1..]| && t[1..][k] == row;
      assert t[k + 1] == toRow(xs[k]);
    }
    Seqs.FilterKeepsAll(t[1..], NonBlank);
  }
}
