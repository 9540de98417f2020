/** Rendering of INSERT statements (chela_query/src/insert.rs). */
module InsertDisplay {
  import opened Ast
  import opened Separated
  import opened ExprDisplay
  import opened QueryDisplay

  /**
   * `InsertStmt`'s `Display`: "INSERT INTO <table> (<columns>) <source>".  The
   * parentheses are written even for an empty column list, no ";" follows,
   * and the `into` flag is not consulted.
   */
  function RenderInsert(i: InsertStmt): (r: string)
    ensures "INSERT INTO " + i.tableName + " (" <= r
    ensures |r| >= |RenderQuery(i.source)| && r[|r| - |RenderQuery(i.source)|..] == RenderQuery(i.source)
  {
    "INSERT INTO " + i.tableName + " (" + CommaSeparated(i.columns) + ") " + RenderQuery(i.source)
  }

  /** The `into` flag has no effect on the text. */
  lemma IntoNotRendered(i: InsertStmt, into: bool)
    ensures RenderInsert(i.(into := into)) == RenderInsert(i)
  {
  }

  /** An empty column list still leaves "()" in the text. */
  lemma EmptyColumnsKeepParentheses(i: InsertStmt)
    requires i.columns == []
    ensures RenderInsert(i) == "INSERT INTO " + i.tableName + " () " + RenderQuery(i.source)
  {
  }

  /**
   * An insert of VALUES rows with no order or limit ends with the last row's
   * ")" — no ";" terminator is written.
   */
  lemma InsertEndsWithLastRow(i: InsertStmt)
    requires i.source.body.ValuesBody? && |i.source.body.values.rows| > 0
    requires i.source.orderBy.None? && i.source.limit.None?
    ensures RenderInsert(i)[|RenderInsert(i)| - 1] == ')'
  {
    var rows := i.source.body.values.rows;
    var last := rows[|rows| - 1];
    assert rows == rows[..|rows| - 1] + [last];
    ValuesAppendRow(rows[..|rows| - 1], last);
  }
}
