/**
 * The free shorthand functions of chela_query/src/builder.rs, and what a
 * builder chain renders to.
 */
module Shorthand {
  import opened Wrappers
  import opened Decimal
  import opened Separated
  import A = Ast
  import CB = CreateBuilder
  import DB = DataTypeBuilder
  import OB = OptionBuilder
  import QB = QueryBuilder
  import IB = InsertBuilder
  import opened ExprDisplay
  import opened QueryDisplay
  import opened CreateDisplay
  import opened InsertDisplay

  /** `create_table(name, columns)`: `CreateBuilder::new(columns).name(name)`. */
  function CreateTable(name: string, columns: seq<A.ColumnDef>): (r: CB.Builder)
    ensures r.name == [name] && r.columns == columns && r.constraints == []
  {
    CB.Name(CB.New(columns), name)
  }

  /** `select_table(name)`: every column of the one named table. */
  function SelectTable(name: string): (r: QB.Builder)
    ensures r.projection == [A.Wildcard] && r.from == [name]
    ensures r.whereExpr == A.Identifier("") && r.selection.None?
    ensures r.orderBy.None? && r.limit.None? && r.groupBy.None? && r.having.None? && r.sortBy == []
  {
    QB.From(QB.Select(QB.New()), name)
  }

  /** `insert_into(table)`: a fresh insert builder aimed at `table`. */
  function InsertInto(table: string): (r: IB.Builder)
    ensures r.tableName == table && r.into && r.columns == []
    ensures r.source == A.QueryStmt(A.ValuesBody(A.Values([[]])), None, None)
  {
    IB.Into(IB.New(), table)
  }

  function Varchar(length: Option<u64>): (r: A.DataType)
    ensures r == A.Varchar(length)
    ensures RenderDataType(r) == if length.None? then "VARCHAR" else "VARCHAR(" + IntToString(length.value) + ")"
  {
    DB.Build(DB.Varchar(DB.New(), length))
  }

  function Int(length: Option<u64>): (r: A.DataType)
    ensures r == A.Int(length)
    ensures RenderDataType(r) == if length.None? then "INT" else "INT(" + IntToString(length.value) + ")"
  {
    DB.Build(DB.Int(DB.New(), length))
  }

  /** `serial()`: the custom type named SERIAL, which renders as "SERIAL". */
  function Serial(): (r: A.DataType)
    ensures r == A.Custom(["SERIAL"])
    ensures RenderDataType(r) == "SERIAL"
  {
    DB.Build(DB.Serial(DB.New()))
  }

  /** `not_null()`: one unnamed option, rendering as "NOT NULL". */
  function NotNull(): (r: seq<A.ColumnOptionDef>)
    ensures r == [A.ColumnOptionDef(None, A.NotNull)]
    ensures CommaSeparated(RenderColumnOptionDefs(r)) == "NOT NULL"
  {
    OB.Build(OB.NotNull(OB.New()))
  }

  /** `primary_key_unique()`: one unnamed option, rendering as "PRIMARY KEY". */
  function PrimaryKeyUnique(): (r: seq<A.ColumnOptionDef>)
    ensures r == [A.ColumnOptionDef(None, A.Unique(true))]
    ensures CommaSeparated(RenderColumnOptionDefs(r)) == "PRIMARY KEY"
  {
    OB.Build(OB.PrimaryKeyUnique(OB.New()))
  }

  /** The decimal texts of the ids, in order. */
  function IdTexts(ids: seq<i32>): (r: seq<string>)
    ensures |r| == |ids|
    ensures forall i :: 0 <= i < |ids| ==> r[i] == IntToString(ids[i])
  {
    seq(|ids|, i requires 0 <= i < |ids| => IntToString(ids[i]))
  }

  /** A single-table `*` query with only a WHERE selection. */
  lemma WhereQueryText(table: string, where_: A.Expr)
    ensures RenderQuery(A.QueryStmt(A.SelectBody(A.Select([A.Wildcard], [table], Some(where_), None, [], None)), None, None))
         == "SELECT * FROM " + table + " WHERE " + RenderExpr(where_)
  {
    var sel := A.Select([A.Wildcard], [table], Some(where_), None, [], None);
    assert CommaSeparated(RenderSelectItems([A.Wildcard])) == "*";
    assert SelectHead(sel) == "SELECT * FROM " + table;
  }

  /**
   * The preload chain `select_table(t).where_(c).in_list(ids)` renders as
   * "SELECT * FROM t WHERE c IN (ids)" with the ids in decimal, comma-separated.
   */
  lemma InListQueryText(table: string, column: string, ids: seq<i32>)
    ensures RenderQuery(QB.Build(QB.InList(QB.Where(SelectTable(table), column), ids)))
         == "SELECT * FROM " + table + " WHERE " + (column + " IN (" + CommaSeparated(IdTexts(ids)) + ")")
  {
    var subject := A.InList(A.Identifier(column), QB.NumberLiterals(ids), false);
    assert QB.Build(QB.InList(QB.Where(SelectTable(table), column), ids))
        == A.QueryStmt(A.SelectBody(A.Select([A.Wildcard], [table], Some(subject), None, [], None)), None, None);
    WhereQueryText(table, subject);
    InListText(column, ids);
  }

  /** The membership test `in_list` builds over a named column. */
  lemma InListText(column: string, ids: seq<i32>)
    ensures RenderExpr(A.InList(A.Identifier(column), QB.NumberLiterals(ids), false))
         == column + " IN (" + CommaSeparated(IdTexts(ids)) + ")"
  {
    NumberLiteralsText(ids);
    InListNegation(A.Identifier(column), QB.NumberLiterals(ids));
  }

  /** The number literals `in_list` builds render as the ids' decimal texts. */
  lemma NumberLiteralsText(ids: seq<i32>)
    ensures RenderExprs(QB.NumberLiterals(ids)) == IdTexts(ids)
  {
    var lits := QB.NumberLiterals(ids);
    forall i | 0 <= i < |ids|
      ensures RenderExprs(lits)[i] == IdTexts(ids)[i]
    {
      assert RenderExpr(lits[i]) == RenderValue(A.Number(IntToString(ids[i]), false));
    }
  }

  /**
   * `select_table(t).order_by(Some(c)).limit(Some(n))` renders as
   * "SELECT * FROM t ORDER BY c LIMIT n".
   */
  lemma OrderLimitQueryText(table: string, column: string, n: i64)
    ensures RenderQuery(QB.Build(QB.Limit(QB.OrderBy(SelectTable(table), Some(column)), Some(n))))
         == "SELECT * FROM " + table + " ORDER BY " + column + " LIMIT " + IntToString(n)
  {
    var sel := A.Select([A.Wildcard], [table], None, None, [], None);
    assert QB.Build(QB.Limit(QB.OrderBy(SelectTable(table), Some(column)), Some(n)))
        == A.QueryStmt(A.SelectBody(sel), Some(column), Some(n));
    assert CommaSeparated(RenderSelectItems([A.Wildcard])) == "*";
    assert RenderSelect(sel) == "SELECT * FROM " + table;
    OrderThenLimit(A.QueryStmt(A.SelectBody(sel), Some(column), Some(n)), column, n);
  }

  /**
   * Adding a column to a table that already has columns adds ", <column>"
   * right after the last column's text; the rest of the statement is kept.
   */
  lemma ColumnAddsText(b: CB.Builder, name: string, t: A.DataType, options: seq<A.ColumnOptionDef>)
    requires |b.columns| > 0 && RenderableCreate(CB.Build(b)) && Renderable(t)
    ensures RenderableCreate(CB.Build(CB.Column(b, name, t, options)))
    ensures RenderCreate(CB.Build(CB.Column(b, name, t, options)))
         == "CREATE TABLE " + RenderObjectName(b.name) + " ("
            + (CommaSeparated(RenderColumnDefs(b.columns)) + ", " + RenderColumnDef(A.ColumnDef(name, t, options)))
            + CommaSeparated(RenderTableConstraints(b.constraints)) + ")"
  {
    var b' := CB.Column(b, name, t, options);
    var c := A.ColumnDef(name, t, options);
    assert b'.columns == b.columns + [c];
    assert RenderableCreate(CB.Build(b'));
    ColumnDefsAppend(b.columns, c);
    JoinAppend(RenderColumnDefs(b.columns), [RenderColumnDef(c)], ", ");
  }

  /** Rendering the column list after an append appends one rendered column. */
  lemma ColumnDefsAppend(cols: seq<A.ColumnDef>, c: A.ColumnDef)
    requires forall i :: 0 <= i < |cols| ==> Renderable(cols[i].dataType)
    requires Renderable(c.dataType)
    ensures RenderColumnDefs(cols + [c]) == RenderColumnDefs(cols) + [RenderColumnDef(c)]
  {
  }

  /**
   * The first foreign-key constraint lands between the last column and the
   * closing parenthesis, written ", CONSTRAINT n FOREIGN KEY (c) REFERENCES t (r)".
   */
  lemma ForeignKeyAddsText(b: CB.Builder, constraintName: string, column: string, table: string, referred: string)
    requires b.constraints == [] && RenderableCreate(CB.Build(b))
    ensures RenderableCreate(CB.Build(CB.ForeignKeyConstraint(b, constraintName, column, table, referred)))
    ensures RenderCreate(CB.Build(CB.ForeignKeyConstraint(b, constraintName, column, table, referred)))
         == "CREATE TABLE " + RenderObjectName(b.name) + " (" + CommaSeparated(RenderColumnDefs(b.columns))
            + (", CONSTRAINT " + constraintName + " FOREIGN KEY (" + column + ") REFERENCES " + table
               + " (" + referred + ")") + ")"
  {
    var b' := CB.ForeignKeyConstraint(b, constraintName, column, table, referred);
    var fk := A.TableForeignKey(Some(constraintName), [column], [table], [referred]);
    assert b'.constraints == [fk];
    assert RenderableCreate(CB.Build(b'));
    ForeignKeyText(constraintName, column, table, referred);
    assert RenderTableConstraints(b'.constraints) == [RenderTableConstraint(fk)];
  }

  /** A single-column foreign key's constraint text. */
  lemma ForeignKeyText(constraintName: string, column: string, table: string, referred: string)
    ensures RenderTableConstraint(A.TableForeignKey(Some(constraintName), [column], [table], [referred]))
         == ", CONSTRAINT " + constraintName + " FOREIGN KEY (" + column + ") REFERENCES " + table
            + " (" + referred + ")"
  {
    assert RenderObjectName([table]) == table;
    assert CommaSeparated([column]) == column;
    assert CommaSeparated([referred]) == referred;
  }

  /** The single-quoted texts of the values, in order. */
  function QuotedTexts(values: seq<string>): (r: seq<string>)
    ensures |r| == |values|
    ensures forall i :: 0 <= i < |values| ==> r[i] == "'" + values[i] + "'"
  {
    seq(|values|, i requires 0 <= i < |values| => "'" + values[i] + "'")
  }

  /** The string literals `values` builds render as the texts quoted verbatim. */
  lemma StringLiteralsText(values: seq<string>)
    ensures RenderExprs(IB.StringLiterals(values)) == QuotedTexts(values)
  {
    var lits := IB.StringLiterals(values);
    forall i | 0 <= i < |values|
      ensures RenderExprs(lits)[i] == QuotedTexts(values)[i]
    {
      assert RenderExpr(lits[i]) == RenderValue(A.SingleQuotedString(values[i]));
    }
  }

  /** A one-row VALUES query with no order or limit renders as "VALUES (row)". */
  lemma OneRowQueryText(row: seq<A.Expr>)
    ensures RenderQuery(A.QueryStmt(A.ValuesBody(A.Values([row])), None, None))
         == "VALUES " + ("(" + CommaSeparated(RenderExprs(row)) + ")")
  {
    ValuesAppendRow([], row);
    assert [] + [row] == [row];
    assert RenderValues(A.Values([])) == "VALUES ";
  }

  /**
   * `insert_into(t).columns(cs).values(vs)` renders as
   * "INSERT INTO t (cs) VALUES ('v1', ...)", values quoted verbatim.
   */
  lemma InsertText(table: string, columns: seq<string>, values: seq<string>)
    ensures RenderInsert(IB.Build(IB.SetValues(IB.Columns(InsertInto(table), columns), values)))
         == "INSERT INTO " + table + " (" + CommaSeparated(columns) + ") "
            + ("VALUES " + ("(" + CommaSeparated(QuotedTexts(values)) + ")"))
  {
    var b := IB.SetValues(IB.Columns(InsertInto(table), columns), values);
    var row := IB.StringLiterals(values);
    assert b.source == A.QueryStmt(A.ValuesBody(A.Values([row])), None, None);
    assert b.columns == columns;
    OneRowQueryText(row);
    StringLiteralsText(values);
  }
}
