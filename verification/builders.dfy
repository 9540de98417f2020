/*
 * The fluent builders of chela_query/src/builder.rs.  Every Rust builder
 * method takes the builder by value and hands it back with one field changed;
 * here each is a function from builder to builder.
 */

/** `CreateBuilder`: assembles a CREATE TABLE statement. */
module CreateBuilder {
  import opened Wrappers
  import opened Ast

  datatype Builder = Builder(name: ObjectName, columns: seq<ColumnDef>, constraints: seq<TableConstraint>)

  /** One entry of the batch `columns` takes: name, type and options. */
  datatype ColumnSpec = ColumnSpec(name: string, dataType: DataType, options: seq<ColumnOptionDef>)

  /** `CreateBuilder::new`: no name, exactly the given columns, no constraints. */
  function New(columns: seq<ColumnDef>): (r: Builder)
    ensures r.name == [] && r.columns == columns && r.constraints == []
  {
    Builder([], columns, [])
  }

  /**
   * `foreign_key_constraint`: appends one named foreign-key constraint over a
   * single column referring to a single column of a single-part table.
   */
  function ForeignKeyConstraint(b: Builder, constraintName: string, columnName: string,
                                foreignTableName: string, referredColumnName: string): (r: Builder)
    ensures r.name == b.name && r.columns == b.columns
    ensures |r.constraints| == |b.constraints| + 1 && r.constraints[..|b.constraints|] == b.constraints
    ensures r.constraints[|b.constraints|]
         == TableForeignKey(Some(constraintName), [columnName], [foreignTableName], [referredColumnName])
  {
    b.(constraints := b.constraints
                      + [TableForeignKey(Some(constraintName), [columnName], [foreignTableName], [referredColumnName])])
  }

  /** `name`: the table name becomes the single part `name`. */
  function Name(b: Builder, name: string): (r: Builder)
    ensures r.name == [name] && r.columns == b.columns && r.constraints == b.constraints
  {
    b.(name := [name])
  }

  /** `column`: appends exactly one column definition at the end. */
  function Column(b: Builder, name: string, dataType: DataType, options: seq<ColumnOptionDef>): (r: Builder)
    ensures r.name == b.name && r.constraints == b.constraints
    ensures |r.columns| == |b.columns| + 1 && r.columns[..|b.columns|] == b.columns
    ensures r.columns[|b.columns|] == ColumnDef(name, dataType, options)
  {
    b.(columns := b.columns + [ColumnDef(name, dataType, options)])
  }

  /**
   * `columns` as written: each entry is pushed onto a clone of the builder
   * that is then dropped, so the builder comes back unchanged for every batch.
   */
  function Columns(b: Builder, batch: seq<ColumnSpec>): (r: Builder)
    ensures r == b
    decreases |batch|
  {
    if |batch| == 0 then b
    else
      var dropped := Column(b, batch[0].name, batch[0].dataType, batch[0].options);
      Columns(b, batch[1..])
  }

  /** The column definitions a batch describes, in order. */
  function ColumnDefsOf(batch: seq<ColumnSpec>): (r: seq<ColumnDef>)
    ensures |r| == |batch|
    ensures forall i :: 0 <= i < |batch| ==> r[i] == ColumnDef(batch[i].name, batch[i].dataType, batch[i].options)
  {
    seq(|batch|, i requires 0 <= i < |batch| => ColumnDef(batch[i].name, batch[i].dataType, batch[i].options))
  }

  /**
   * `columns` as evidently intended: the entries are appended one by one,
   * in order, and nothing else changes.
   */
  function ColumnsAppending(b: Builder, batch: seq<ColumnSpec>): (r: Builder)
    ensures r.name == b.name && r.constraints == b.constraints
    ensures r.columns == b.columns + ColumnDefsOf(batch)
    decreases |batch|
  {
    if |batch| == 0 then b
    else
      var next := Column(b, batch[0].name, batch[0].dataType, batch[0].options);
      AppendFirstColumn(b.columns, next.columns, batch);
      ColumnsAppending(next, batch[1..])
  }

  /** Appending the first entry, then the rest, appends the whole batch. */
  lemma AppendFirstColumn(before: seq<ColumnDef>, after: seq<ColumnDef>, batch: seq<ColumnSpec>)
    requires |batch| > 0 && after == before + [ColumnDef(batch[0].name, batch[0].dataType, batch[0].options)]
    ensures after + ColumnDefsOf(batch[1..]) == before + ColumnDefsOf(batch)
  {
    var defs := ColumnDefsOf(batch);
    assert |defs| == |batch|;
    assert after == before + [defs[0]];
  }

  /** `build`: the statement holds the builder's name, columns and constraints. */
  function Build(b: Builder): (r: CreateStmt)
    ensures r.name == b.name && r.columns == b.columns && r.constraints == b.constraints
  {
    CreateStmt(b.name, b.columns, b.constraints)
  }

  /**
   * The batch a caller hands to `columns` is lost: one entry in, no column
   * out, where the intended builder has that column.
   */
  lemma ColumnsDropsTheBatch()
    ensures Columns(New([]), [ColumnSpec("id", Int(None), [])]).columns == []
    ensures ColumnsAppending(New([]), [ColumnSpec("id", Int(None), [])]).columns == [ColumnDef("id", Int(None), [])]
  {
  }
}

/** `DataTypeBuilder`: picks one data type. */
module DataTypeBuilder {
  import opened Wrappers
  import opened Decimal
  import A = Ast

  datatype Builder = Builder(dataType: A.DataType)

  /** `DataTypeBuilder::new` starts from a custom type with an empty name. */
  function New(): (r: Builder)
    ensures r.dataType == A.Custom([])
  {
    Builder(A.Custom([]))
  }

  function Varchar(b: Builder, length: Option<u64>): (r: Builder)
    ensures r.dataType == A.Varchar(length)
  {
    b.(dataType := A.Varchar(length))
  }

  function Int(b: Builder, length: Option<u64>): (r: Builder)
    ensures r.dataType == A.Int(length)
  {
    b.(dataType := A.Int(length))
  }

  /** `serial`: PostgreSQL's auto-increment pseudo-type, as a custom type name. */
  function Serial(b: Builder): (r: Builder)
    ensures r.dataType == A.Custom(["SERIAL"])
  {
    b.(dataType := A.Custom(["SERIAL"]))
  }

  function Build(b: Builder): (r: A.DataType)
    ensures r == b.dataType
  {
    b.dataType
  }
}

/** `ColumnOptionDefBuilder`: collects column options. */
module OptionBuilder {
  import opened Wrappers
  import opened Ast

  datatype Builder = Builder(options: seq<ColumnOptionDef>)

  function New(): (r: Builder)
    ensures r.options == []
  {
    Builder([])
  }

  /** `option`: appends a named option. */
  function AddOption(b: Builder, name: string, option: ColumnOption): (r: Builder)
    ensures |r.options| == |b.options| + 1 && r.options[..|b.options|] == b.options
    ensures r.options[|b.options|] == ColumnOptionDef(Some(name), option)
  {
    b.(options := b.options + [ColumnOptionDef(Some(name), option)])
  }

  /** `primary_key_unique`: appends an unnamed PRIMARY KEY option. */
  function PrimaryKeyUnique(b: Builder): (r: Builder)
    ensures |r.options| == |b.options| + 1 && r.options[..|b.options|] == b.options
    ensures r.options[|b.options|] == ColumnOptionDef(None, Unique(true))
  {
    b.(options := b.options + [ColumnOptionDef(None, Unique(true))])
  }

  /** `not_null`: appends an unnamed NOT NULL option. */
  function NotNull(b: Builder): (r: Builder)
    ensures |r.options| == |b.options| + 1 && r.options[..|b.options|] == b.options
    ensures r.options[|b.options|] == ColumnOptionDef(None, Ast.NotNull)
  {
    b.(options := b.options + [ColumnOptionDef(None, Ast.NotNull)])
  }

  function Build(b: Builder): (r: seq<ColumnOptionDef>)
    ensures r == b.options
  {
    b.options
  }
}

/** `QueryBuilder`: assembles a SELECT query. */
module QueryBuilder {
  import opened Wrappers
  import opened Decimal
  import A = Ast

  /**
   * The builder's fields.  `whereExpr` is the pending WHERE subject that
   * `where_` sets and `in_list` reads.
   */
  datatype Builder = Builder(
    orderBy: Option<string>,
    whereExpr: A.Expr,
    limit: Option<i64>,
    projection: seq<A.SelectItem>,
    from: seq<string>,
    selection: Option<A.Expr>,
    groupBy: Option<string>,
    sortBy: seq<A.Expr>,
    having: Option<A.Expr>)

  /** Every field but the pending subject and the WHERE selection agrees. */
  predicate SameClauses(a: Builder, b: Builder)
  {
    && a.orderBy == b.orderBy && a.limit == b.limit && a.projection == b.projection
    && a.from == b.from && a.groupBy == b.groupBy && a.sortBy == b.sortBy && a.having == b.having
  }

  /** `QueryBuilder::new`: everything empty, the pending subject the empty identifier. */
  function New(): (r: Builder)
    ensures r.whereExpr == A.Identifier("") && r.selection.None?
    ensures r.projection == [] && r.from == [] && r.sortBy == []
    ensures r.orderBy.None? && r.limit.None? && r.groupBy.None? && r.having.None?
  {
    Builder(None, A.Identifier(""), None, [], [], None, None, [], None)
  }

  /** `select`: the projection becomes `*`. */
  function Select(b: Builder): (r: Builder)
    ensures r.projection == [A.Wildcard]
    ensures r.from == b.from && r.whereExpr == b.whereExpr && r.selection == b.selection
    ensures r.orderBy == b.orderBy && r.limit == b.limit && r.groupBy == b.groupBy
    ensures r.sortBy == b.sortBy && r.having == b.having
  {
    b.(projection := [A.Wildcard])
  }

  /** `from`: the query reads exactly the one named table. */
  function From(b: Builder, table: string): (r: Builder)
    ensures r.from == [table]
    ensures r.projection == b.projection && r.whereExpr == b.whereExpr && r.selection == b.selection
    ensures r.orderBy == b.orderBy && r.limit == b.limit && r.groupBy == b.groupBy
    ensures r.sortBy == b.sortBy && r.having == b.having
  {
    b.(from := [table])
  }

  /** Each id as a non-negated number literal holding its decimal text, in order. */
  function NumberLiterals(ids: seq<i32>): (r: seq<A.Expr>)
    ensures |r| == |ids|
    ensures forall i :: 0 <= i < |ids| ==> r[i] == A.Value(A.Number(IntToString(ids[i]), false))
  {
    seq(|ids|, i requires 0 <= i < |ids| => A.Value(A.Number(IntToString(ids[i]), false)))
  }

  /**
   * `in_list`: the WHERE selection becomes "<pending subject> IN (<ids>)",
   * capturing whatever subject is pending at this moment.
   */
  function InList(b: Builder, ids: seq<i32>): (r: Builder)
    ensures r.selection == Some(A.InList(b.whereExpr, NumberLiterals(ids), false))
    ensures r.whereExpr == b.whereExpr && SameClauses(r, b)
  {
    b.(selection := Some(A.InList(b.whereExpr, NumberLiterals(ids), false)))
  }

  /** `where_`: only the pending subject changes; the selection stays as it is. */
  function Where(b: Builder, id: string): (r: Builder)
    ensures r.whereExpr == A.Identifier(id)
    ensures r.selection == b.selection && SameClauses(r, b)
  {
    b.(whereExpr := A.Identifier(id))
  }

  function GroupBy(b: Builder, groupBy: Option<string>): (r: Builder)
    ensures r.groupBy == groupBy
    ensures r.orderBy == b.orderBy && r.limit == b.limit && r.from == b.from && r.projection == b.projection
    ensures r.selection == b.selection && r.whereExpr == b.whereExpr && r.sortBy == b.sortBy && r.having == b.having
  {
    b.(groupBy := groupBy)
  }

  function OrderBy(b: Builder, orderBy: Option<string>): (r: Builder)
    ensures r.orderBy == orderBy
    ensures r.groupBy == b.groupBy && r.limit == b.limit && r.from == b.from && r.projection == b.projection
    ensures r.selection == b.selection && r.whereExpr == b.whereExpr && r.sortBy == b.sortBy && r.having == b.having
  {
    b.(orderBy := orderBy)
  }

  function Limit(b: Builder, limit: Option<i64>): (r: Builder)
    ensures r.limit == limit
    ensures r.groupBy == b.groupBy && r.orderBy == b.orderBy && r.from == b.from && r.projection == b.projection
    ensures r.selection == b.selection && r.whereExpr == b.whereExpr && r.sortBy == b.sortBy && r.having == b.having
  {
    b.(limit := limit)
  }

  /** `sort_by`: clears the (never rendered) SORT BY list. */
  function SortBy(b: Builder): (r: Builder)
    ensures r.sortBy == []
    ensures r.groupBy == b.groupBy && r.orderBy == b.orderBy && r.from == b.from && r.projection == b.projection
    ensures r.selection == b.selection && r.whereExpr == b.whereExpr && r.limit == b.limit && r.having == b.having
  {
    b.(sortBy := [])
  }

  /**
   * `build`: a SELECT body from the projection, tables, selection, grouping,
   * sort list and HAVING, with the order and limit on the query.  The pending
   * subject is not part of the result.
   */
  function Build(b: Builder): (r: A.QueryStmt)
    ensures r.body == A.SelectBody(A.Select(b.projection, b.from, b.selection, b.groupBy, b.sortBy, b.having))
    ensures r.orderBy == b.orderBy && r.limit == b.limit
  {
    A.QueryStmt(A.SelectBody(A.Select(b.projection, b.from, b.selection, b.groupBy, b.sortBy, b.having)),
                b.orderBy, b.limit)
  }

  /** A later `where_` does not alter a selection `in_list` already made. */
  lemma WhereAfterInList(b: Builder, ids: seq<i32>, id: string)
    ensures Build(Where(InList(b, ids), id)) == Build(InList(b, ids))
  {
  }

  /** Without any `where_`, `in_list` tests the empty identifier. */
  lemma InListWithoutWhere(ids: seq<i32>)
    ensures InList(New(), ids).selection == Some(A.InList(A.Identifier(""), NumberLiterals(ids), false))
  {
  }
}

/** `InsertBuilder`: assembles an INSERT of one row of string literals. */
module InsertBuilder {
  import opened Wrappers
  import A = Ast

  datatype Builder = Builder(into: bool, tableName: string, columns: seq<A.Ident>, source: A.QueryStmt)

  /**
   * `InsertBuilder::new`: INTO set, no table, no columns, and a VALUES body
   * holding one empty row, with no order or limit.
   */
  function New(): (r: Builder)
    ensures r.into && r.tableName == "" && r.columns == []
    ensures r.source == A.QueryStmt(A.ValuesBody(A.Values([[]])), None, None)
  {
    Builder(true, "", [], A.QueryStmt(A.ValuesBody(A.Values([[]])), None, None))
  }

  /** `column`: appends one column name. */
  function Column(b: Builder, column: string): (r: Builder)
    ensures r.columns == b.columns + [column]
    ensures r.into == b.into && r.tableName == b.tableName && r.source == b.source
  {
    b.(columns := b.columns + [column])
  }

  /** `columns`: pushes the names one at a time, so they end up appended in order. */
  function Columns(b: Builder, columns: seq<string>): (r: Builder)
    ensures r.columns == b.columns + columns
    ensures r.into == b.into && r.tableName == b.tableName && r.source == b.source
    decreases |columns|
  {
    if |columns| == 0 then b
    else Columns(Column(b, columns[0]), columns[1..])
  }

  /** `into`: sets the table name. */
  function Into(b: Builder, table: string): (r: Builder)
    ensures r.tableName == table
    ensures r.into == b.into && r.columns == b.columns && r.source == b.source
  {
    b.(tableName := table)
  }

  /** Each text as a single-quoted string literal, in order. */
  function StringLiterals(values: seq<string>): (r: seq<A.Expr>)
    ensures |r| == |values|
    ensures forall i :: 0 <= i < |values| ==> r[i] == A.Value(A.SingleQuotedString(values[i]))
  {
    seq(|values|, i requires 0 <= i < |values| => A.Value(A.SingleQuotedString(values[i])))
  }

  /** `values`: the body becomes exactly one row of string literals; order and limit stay. */
  function SetValues(b: Builder, values: seq<string>): (r: Builder)
    ensures r.source.body == A.ValuesBody(A.Values([StringLiterals(values)]))
    ensures r.source.orderBy == b.source.orderBy && r.source.limit == b.source.limit
    ensures r.into == b.into && r.tableName == b.tableName && r.columns == b.columns
  {
    b.(source := b.source.(body := A.ValuesBody(A.Values([StringLiterals(values)]))))
  }

  /** `build`: copies table, columns and source, and always sets INTO. */
  function Build(b: Builder): (r: A.InsertStmt)
    ensures r.into
    ensures r.tableName == b.tableName && r.columns == b.columns && r.source == b.source
  {
    A.InsertStmt(true, b.tableName, b.columns, b.source)
  }
}
