/**
 * The SQL statement tree of the query crate: values and expressions
 * (values.rs, query.rs), the SELECT tree (query.rs), the CREATE TABLE tree
 * (create.rs) and the INSERT statement (insert.rs).  The three Rust files
 * refer to each other's types, so their data lives in this one module and
 * their rendering in one module per file.
 */
module Ast {
  import opened Wrappers
  import opened Decimal

  /** An identifier, rendered as its text. */
  type Ident = string

  /**
   * A possibly qualified name.  Every name the code base builds has exactly one
   * part; the rendering joins the parts with '.'.
   */
  type ObjectName = seq<Ident>

  datatype Value =
    | SingleQuotedString(text: string)
    | Number(digits: string, negated: bool)

  /**
   * Expressions.  query.rs:46-54 declares only `Value` and `InList`, but the
   * builder (builder.rs:226, 267) and the tests (lib.rs:201) also build an
   * `Identifier`, so the model has all three arms.
   */
  datatype Expr =
    | Value(value: Value)
    | Identifier(name: Ident)
    | InList(subject: Expr, list: seq<Expr>, negated: bool)

  /** A VALUES body: rows of expressions. */
  datatype Values = Values(rows: seq<seq<Expr>>)

  datatype SelectItem = Wildcard

  /**
   * A SELECT.  `from` is a `String` in query.rs:35 but a list of tables in
   * builder.rs:210 and in the tests; it is modelled as the list of table names
   * (each table renders as its name).
   */
  datatype Select = Select(
    projection: seq<SelectItem>,
    from: seq<string>,
    selection: Option<Expr>,
    groupBy: Option<string>,
    sortBy: seq<Expr>,
    having: Option<Expr>)

  /** `SetExpr::Select` and `SetExpr::Values`. */
  datatype SetExpr =
    | SelectBody(select: Select)
    | ValuesBody(values: Values)

  datatype QueryStmt = QueryStmt(body: SetExpr, orderBy: Option<string>, limit: Option<i64>)

  datatype DataType =
    | Char(charLength: Option<u64>)
    | Varchar(varcharLength: Option<u64>)
    | Nvarchar(nvarcharLength: Option<u64>)
    | Uuid
    | Clob(clobSize: u64)
    | Binary(binarySize: u64)
    | Varbinary(varbinarySize: u64)
    | Blob(blobSize: u64)
    | Decimal(precision: Option<u64>, scale: Option<u64>)
    | Float(floatSize: Option<u64>)
    | TinyInt(tinyWidth: Option<u64>)
    | UnsignedTinyInt(utinyWidth: Option<u64>)
    | SmallInt(smallWidth: Option<u64>)
    | UnsignedSmallInt(usmallWidth: Option<u64>)
    | Int(intWidth: Option<u64>)
    | UnsignedInt(uintWidth: Option<u64>)
    | BigInt(bigWidth: Option<u64>)
    | UnsignedBigInt(ubigWidth: Option<u64>)
    | Real
    | Double
    | Boolean
    | Date
    | Time
    | Timestamp
    | Interval
    | Regclass
    | Text
    | String
    | Bytea
    | Custom(customName: ObjectName)
    | Array(element: DataType)
    | Enum(enumValues: seq<string>)
    | Set(setValues: seq<string>)

  datatype ColumnOption =
    | Null
    | NotNull
    | Default(defaultExpr: Expr)
    | Unique(isPrimary: bool)
    | ForeignKey(foreignTable: ObjectName, referredColumns: seq<Ident>)
    | Check(checkExpr: Expr)

  /** An option with an optional constraint name (the name is never rendered). */
  datatype ColumnOptionDef = ColumnOptionDef(name: Option<Ident>, option: ColumnOption)

  datatype ColumnDef = ColumnDef(name: Ident, dataType: DataType, options: seq<ColumnOptionDef>)

  /** `TableConstraint::ForeignKey`, the only table constraint. */
  datatype TableConstraint = TableForeignKey(
    name: Option<Ident>,
    columns: seq<Ident>,
    foreignTable: ObjectName,
    referredColumns: seq<Ident>)

  datatype CreateStmt = CreateStmt(name: ObjectName, columns: seq<ColumnDef>, constraints: seq<TableConstraint>)

  /**
   * An INSERT.  insert.rs:13 types the column list as `Vec<Column>`, a type the
   * query crate no longer defines; the builder (builder.rs:315) fills it with
   * identifiers, which is what the model holds.
   */
  datatype InsertStmt = InsertStmt(into: bool, tableName: string, columns: seq<Ident>, source: QueryStmt)
}
