/**
 * Rendering of CREATE TABLE statements, column definitions, column options,
 * table constraints and data types, and the application-type-to-SQL-type
 * mapping (chela_query/src/create.rs).
 */
module CreateDisplay {
  import opened Wrappers
  import opened Ast
  import opened Separated
  import opened Decimal
  import opened ExprDisplay

  /**
   * An `ObjectName` renders as its parts joined by '.'.  Its `Display` is not
   * part of this model; this is the convention of the SQL-parser crate the
   * types come from, and every name built here has a single part, which
   * renders as itself.
   */
  function RenderObjectName(n: ObjectName): (r: string)
    ensures |n| == 1 ==> r == n[0]
  {
    Join(n, ".")
  }

  /**
   * `format_type_with_optional_length`: the type name, then "(n)" when a length
   * is present, then " UNSIGNED" for an unsigned variant.
   */
  function FormatTypeWithOptionalLength(name: string, len: Option<u64>, unsigned: bool): (r: string)
    ensures name <= r
    ensures len.None? && !unsigned ==> r == name
  {
    name
      + (if len.Some? then "(" + IntToString(len.value) + ")" else "")
      + (if unsigned then " UNSIGNED" else "")
  }

  /**
   * `escape_single_quote_string` is not part of this model; it is taken to
   * double every single quote, the convention of the SQL-parser crate it
   * comes from.
   */
  function EscapeSingleQuote(s: string): (r: string)
    ensures |r| >= |s|
    ensures (forall i :: 0 <= i < |s| ==> s[i] != '\'') ==> r == s
  {
    if |s| == 0 then ""
    else (if s[0] == '\'' then "''" else [s[0]]) + EscapeSingleQuote(s[1..])
  }

  /** The members of an ENUM or SET type: quoted, escaped, comma-separated. */
  function RenderQuotedList(vals: seq<string>): string
  {
    CommaSeparated(seq(|vals|, i requires 0 <= i < |vals| => "'" + EscapeSingleQuote(vals[i]) + "'"))
  }

  /**
   * A data type that renders without panicking: a DECIMAL with a scale must
   * also have a precision (the renderer unwraps it, create.rs:284).
   */
  predicate Renderable(d: DataType)
  {
    match d
    case Decimal(precision, scale) => scale.Some? ==> precision.Some?
    case Array(element) => Renderable(element)
    case _ => true
  }

  /**
   * The SQL keyword each variant's text starts with, the opening parenthesis
   * included for the variants that always take one.  An array starts with its
   * element's keyword; a custom name has none.
   */
  function TypeKeyword(d: DataType): string
    decreases d
  {
    match d
    case Char(_) => "CHAR"
    case Varchar(_) => "VARCHAR"
    case Nvarchar(_) => "NVARCHAR"
    case Uuid => "UUID"
    case Clob(_) => "CLOB("
    case Binary(_) => "BINARY("
    case Varbinary(_) => "VARBINARY("
    case Blob(_) => "BLOB("
    case Decimal(_, _) => "NUMERIC"
    case Float(_) => "FLOAT"
    case TinyInt(_) => "TINYINT"
    case UnsignedTinyInt(_) => "TINYINT"
    case SmallInt(_) => "SMALLINT"
    case UnsignedSmallInt(_) => "SMALLINT"
    case Int(_) => "INT"
    case UnsignedInt(_) => "INT"
    case BigInt(_) => "BIGINT"
    case UnsignedBigInt(_) => "BIGINT"
    case Real => "REAL"
    case Double => "DOUBLE"
    case Boolean => "BOOLEAN"
    case Date => "DATE"
    case Time => "TIME"
    case Timestamp => "TIMESTAMP"
    case Interval => "INTERVAL"
    case Regclass => "REGCLASS"
    case Text => "TEXT"
    case String => "STRING"
    case Bytea => "BYTEA"
    case Array(element) => TypeKeyword(element)
    case Custom(_) => ""
    case Enum(_) => "ENUM("
    case Set(_) => "SET("
  }

  /** The variants whose text is their keyword alone. */
  predicate KeywordOnly(d: DataType)
  {
    d.Uuid? || d.Real? || d.Double? || d.Boolean? || d.Date? || d.Time? || d.Timestamp?
    || d.Interval? || d.Regclass? || d.Text? || d.String? || d.Bytea?
  }

  /**
   * `DataType`'s `Display` (create.rs:267-347).  An array's text ends with
   * "[]"; StartsWithKeyword gives the keyword every text starts with.
   */
  function RenderDataType(d: DataType): (r: string)
    requires Renderable(d)
    ensures d.Array? ==> |r| >= 2 && r[|r| - 2..] == "[]"
    decreases d
  {
    match d
    case Char(size) => FormatTypeWithOptionalLength("CHAR", size, false)
    case Varchar(size) => FormatTypeWithOptionalLength("VARCHAR", size, false)
    case Nvarchar(size) => FormatTypeWithOptionalLength("NVARCHAR", size, false)
    case Uuid => "UUID"
    case Clob(size) => "CLOB(" + IntToString(size) + ")"
    case Binary(size) => "BINARY(" + IntToString(size) + ")"
    case Varbinary(size) => "VARBINARY(" + IntToString(size) + ")"
    case Blob(size) => "BLOB(" + IntToString(size) + ")"
    case Decimal(precision, scale) =>
      if scale.Some? then "NUMERIC(" + IntToString(precision.value) + "," + IntToString(scale.value) + ")"
      else FormatTypeWithOptionalLength("NUMERIC", precision, false)
    case Float(size) => FormatTypeWithOptionalLength("FLOAT", size, false)
    case TinyInt(w) => FormatTypeWithOptionalLength("TINYINT", w, false)
    case UnsignedTinyInt(w) => FormatTypeWithOptionalLength("TINYINT", w, true)
    case SmallInt(w) => FormatTypeWithOptionalLength("SMALLINT", w, false)
    case UnsignedSmallInt(w) => FormatTypeWithOptionalLength("SMALLINT", w, true)
    case Int(w) => FormatTypeWithOptionalLength("INT", w, false)
    case UnsignedInt(w) => FormatTypeWithOptionalLength("INT", w, true)
    case BigInt(w) => FormatTypeWithOptionalLength("BIGINT", w, false)
    case UnsignedBigInt(w) => FormatTypeWithOptionalLength("BIGINT", w, true)
    case Real => "REAL"
    case Double => "DOUBLE"
    case Boolean => "BOOLEAN"
    case Date => "DATE"
    case Time => "TIME"
    case Timestamp => "TIMESTAMP"
    case Interval => "INTERVAL"
    case Regclass => "REGCLASS"
    case Text => "TEXT"
    case String => "STRING"
    case Bytea => "BYTEA"
    case Array(element) => RenderDataType(element) + "[]"
    case Custom(name) => RenderObjectName(name)
    case Enum(vals) => "ENUM(" + RenderQuotedList(vals) + ")"
    case Set(vals) => "SET(" + RenderQuotedList(vals) + ")"
  }

  /** The variants written through `format_type_with_optional_length`. */
  predicate OptionalLengthType(d: DataType)
  {
    d.Char? || d.Varchar? || d.Nvarchar? || d.Float? || d.TinyInt? || d.UnsignedTinyInt?
    || d.SmallInt? || d.UnsignedSmallInt? || d.Int? || d.UnsignedInt? || d.BigInt? || d.UnsignedBigInt?
  }

  /** Every type's text starts with its variant's keyword. */
  lemma {:induction false} StartsWithKeyword(d: DataType)
    requires Renderable(d)
    ensures TypeKeyword(d) <= RenderDataType(d)
    decreases d
  {
    if KeywordOnly(d) {
      KeywordOnlyTexts(d);
    } else if OptionalLengthType(d) {
      OptionalLengthKeyword(d);
    } else if d.Array? {
      StartsWithKeyword(d.element);
    } else {
      ParenthesisedKeyword(d);
    }
  }

  /** The twelve keyword-only variants print their keyword and nothing else. */
  lemma KeywordOnlyTexts(d: DataType)
    requires KeywordOnly(d)
    ensures RenderDataType(d) == TypeKeyword(d)
  {
  }

  lemma OptionalLengthKeyword(d: DataType)
    requires OptionalLengthType(d)
    ensures TypeKeyword(d) <= RenderDataType(d)
  {
  }

  lemma ParenthesisedKeyword(d: DataType)
    requires Renderable(d) && !KeywordOnly(d) && !OptionalLengthType(d) && !d.Array?
    ensures TypeKeyword(d) <= RenderDataType(d)
  {
  }

  /** The sized large-object and binary types always print their size. */
  lemma SizedTypeTexts(n: u64)
    ensures RenderDataType(Clob(n)) == "CLOB(" + IntToString(n) + ")"
    ensures RenderDataType(Binary(n)) == "BINARY(" + IntToString(n) + ")"
    ensures RenderDataType(Varbinary(n)) == "VARBINARY(" + IntToString(n) + ")"
    ensures RenderDataType(Blob(n)) == "BLOB(" + IntToString(n) + ")"
  {
  }

  /** `ColumnOption`'s `Display` (create.rs:168-195). */
  function RenderColumnOption(o: ColumnOption): (r: string)
    ensures o.Unique? ==> (r == "PRIMARY KEY" <==> o.isPrimary) && (r == "UNIQUE" <==> !o.isPrimary)
    ensures o.NotNull? ==> r == "NOT NULL"
    ensures o.Null? ==> r == "NULL"
  {
    match o
    case Null => "NULL"
    case NotNull => "NOT NULL"
    case Default(e) => "DEFAULT " + RenderExpr(e)
    case Unique(isPrimary) => if isPrimary then "PRIMARY KEY" else "UNIQUE"
    case ForeignKey(table, referred) =>
      "FOREIGN KEY REFERENCES " + RenderObjectName(table) + " (" + CommaSeparated(referred) + ")"
    case Check(e) => "CHECK (" + RenderExpr(e) + ")"
  }

  /**
   * A DEFAULT option prints its expression after the keyword; a CHECK option
   * prints it in parentheses.
   */
  lemma ExprOptionTexts(e: Expr)
    ensures RenderColumnOption(Default(e)) == "DEFAULT " + RenderExpr(e)
    ensures RenderColumnOption(Check(e)) == "CHECK (" + RenderExpr(e) + ")"
  {
  }

  /**
   * `ColumnOptionDef`'s `Display` (create.rs:131-135): only the option; its
   * name is dropped (OptionNameIgnored).
   */
  function RenderColumnOptionDef(d: ColumnOptionDef): (r: string)
    ensures r == RenderColumnOption(d.option)
    ensures d.option.Unique? ==> (r == "PRIMARY KEY" <==> d.option.isPrimary)
    ensures d.option.NotNull? ==> r == "NOT NULL"
  {
    RenderColumnOption(d.option)
  }

  function RenderColumnOptionDefs(ds: seq<ColumnOptionDef>): (r: seq<string>)
    ensures |r| == |ds|
    ensures forall i :: 0 <= i < |ds| ==> r[i] == RenderColumnOption(ds[i].option)
  {
    seq(|ds|, i requires 0 <= i < |ds| => RenderColumnOptionDef(ds[i]))
  }

  /**
   * `ColumnDef`'s `Display` (create.rs:113-123): the name, a space, the type,
   * a space (kept even without options), then the options comma-separated.
   */
  function RenderColumnDef(c: ColumnDef): (r: string)
    requires Renderable(c.dataType)
    ensures c.name + " " + RenderDataType(c.dataType) + " " <= r
    ensures |c.options| == 1 ==> r == c.name + " " + RenderDataType(c.dataType) + " " + RenderColumnOption(c.options[0].option)
  {
    c.name + " " + RenderDataType(c.dataType) + " " + CommaSeparated(RenderColumnOptionDefs(c.options))
  }

  function RenderColumnDefs(cs: seq<ColumnDef>): (r: seq<string>)
    requires forall i :: 0 <= i < |cs| ==> Renderable(cs[i].dataType)
    ensures |r| == |cs|
    ensures forall i :: 0 <= i < |cs| ==> r[i] == RenderColumnDef(cs[i])
  {
    seq(|cs|, i requires 0 <= i < |cs| => RenderColumnDef(cs[i]))
  }

  /**
   * `TableConstraint`'s `Display` (create.rs:67-86).  It writes its own leading
   * ", " and unwraps the constraint name.
   */
  function RenderTableConstraint(t: TableConstraint): (r: string)
    requires t.name.Some?
    ensures ", CONSTRAINT " <= r
  {
    ", CONSTRAINT " + t.name.value
      + " FOREIGN KEY (" + CommaSeparated(t.columns) + ") REFERENCES "
      + RenderObjectName(t.foreignTable) + " (" + CommaSeparated(t.referredColumns) + ")"
  }

  function RenderTableConstraints(ts: seq<TableConstraint>): (r: seq<string>)
    requires forall i :: 0 <= i < |ts| ==> ts[i].name.Some?
    ensures |r| == |ts|
    ensures forall i :: 0 <= i < |ts| ==> r[i] == RenderTableConstraint(ts[i])
  {
    seq(|ts|, i requires 0 <= i < |ts| => RenderTableConstraint(ts[i]))
  }

  /** A CREATE TABLE statement the renderer can write without panicking. */
  predicate RenderableCreate(c: CreateStmt)
  {
    && (forall i :: 0 <= i < |c.columns| ==> Renderable(c.columns[i].dataType))
    && (forall i :: 0 <= i < |c.constraints| ==> c.constraints[i].name.Some?)
  }

  /**
   * `CreateStmt`'s `Display` (create.rs:89-103): the columns comma-separated,
   * then the constraints joined by ", " (each already starting with its own
   * ", "), then ")".
   */
  function RenderCreate(c: CreateStmt): (r: string)
    requires RenderableCreate(c)
    ensures "CREATE TABLE " + RenderObjectName(c.name) + " (" <= r
    ensures "CREATE TABLE " + RenderObjectName(c.name) + " (" + CommaSeparated(RenderColumnDefs(c.columns)) <= r
    ensures r[|r| - 1] == ')'
  {
    "CREATE TABLE " + RenderObjectName(c.name) + " ("
      + CommaSeparated(RenderColumnDefs(c.columns))
      + CommaSeparated(RenderTableConstraints(c.constraints))
      + ")"
  }

  /** The application type names `DataType::from` accepts. */
  const SupportedTypeNames: set<string> := {
    "i8", "i64", "f64", "bool", "String", "NaiveDate", "i32", "f32", "i16",
    "DateTime<chrono::Local>", "NaiveDateTime", "&[u8]", "Uuid"
  }

  /**
   * `DataType::from(String)` (create.rs:444-466): a fixed table from
   * application type names to SQL types.  Any other name is the
   * "not supported type" panic, modelled as `None`.
   */
  function DataTypeFrom(s: string): (r: Option<DataType>)
    ensures r.Some? <==> s in SupportedTypeNames
    ensures r.Some? ==> Renderable(r.value)
  {
    match s
    case "i8" => Some(Char(None))
    case "i64" => Some(BigInt(None))
    case "f64" => Some(Double)
    case "bool" => Some(Boolean)
    case "String" => Some(Varchar(Some(150)))
    case "NaiveDate" => Some(Date)
    case "i32" => Some(Int(None))
    case "f32" => Some(Real)
    case "i16" => Some(SmallInt(None))
    case "DateTime<chrono::Local>" => Some(Time)
    case "NaiveDateTime" => Some(Time)
    case "&[u8]" => Some(Bytea)
    case "Uuid" => Some(Uuid)
    case _ => None
  }

  lemma SuffixAfterName(name: string, a: string, b: string)
    requires name + a == name + b
    ensures a == b
  {
    assert a == (name + a)[|name|..];
    assert b == (name + b)[|name|..];
  }

  /** In "(digits)rest" the first ')' sits right after the digits. */
  lemma CloseParenthesis(d: string, t: string)
    requires AllDigits(d)
    ensures ("(" + d + ")" + t)[|d| + 1] == ')'
    ensures forall i :: 1 <= i <= |d| ==> IsDigit(("(" + d + ")" + t)[i])
  {
    var s := "(" + d + ")" + t;
    forall i | 1 <= i <= |d|
      ensures IsDigit(s[i])
    {
      assert s[i] == d[i - 1];
    }
  }

  /** Digit text in parentheses can be split off a string in one way only. */
  lemma ParenthesisedDigits(d1: string, t1: string, d2: string, t2: string)
    requires AllDigits(d1) && AllDigits(d2)
    requires "(" + d1 + ")" + t1 == "(" + d2 + ")" + t2
    ensures d1 == d2 && t1 == t2
  {
    var s := "(" + d1 + ")" + t1;
    CloseParenthesis(d1, t1);
    CloseParenthesis(d2, t2);
    if |d1| == |d2| {
      assert d1 == s[1..|d1| + 1] == d2;
      assert t1 == s[|d1| + 2..] == t2;
    }
  }

  /**
   * The length and the unsigned marker can be read back from the text: two
   * renderings of the same type name agree only if their lengths and their
   * signedness agree.
   */
  lemma FormatTypeInjective(name: string, l1: Option<u64>, u1: bool, l2: Option<u64>, u2: bool)
    requires FormatTypeWithOptionalLength(name, l1, u1) == FormatTypeWithOptionalLength(name, l2, u2)
    ensures l1 == l2 && u1 == u2
  {
    FormatTypeSplit(name, l1, u1);
    FormatTypeSplit(name, l2, u2);
    SuffixAfterName(name, LengthSuffix(l1, u1), LengthSuffix(l2, u2));
    SuffixInjective(l1, u1, l2, u2);
  }

  lemma FormatTypeSplit(name: string, len: Option<u64>, unsigned: bool)
    ensures FormatTypeWithOptionalLength(name, len, unsigned) == name + LengthSuffix(len, unsigned)
  {
  }

  lemma SuffixInjective(l1: Option<u64>, u1: bool, l2: Option<u64>, u2: bool)
    requires LengthSuffix(l1, u1) == LengthSuffix(l2, u2)
    ensures l1 == l2 && u1 == u2
  {
    SuffixStart(l1, u1);
    SuffixStart(l2, u2);
    if l1.Some? && l2.Some? {
      ParenthesisedDigits(IntToString(l1.value), UnsignedSuffix(u1), IntToString(l2.value), UnsignedSuffix(u2));
      IntToStringInjective(l1.value, l2.value);
    }
  }

  /** What a type name is followed by: the optional length, then the optional unsigned marker. */
  function LengthSuffix(len: Option<u64>, unsigned: bool): string
  {
    (if len.Some? then "(" + IntToString(len.value) + ")" else "") + UnsignedSuffix(unsigned)
  }

  function UnsignedSuffix(unsigned: bool): string
  {
    if unsigned then " UNSIGNED" else ""
  }

  /** The suffix opens with '(' exactly when a length is given, with ' ' when only the marker is. */
  lemma SuffixStart(len: Option<u64>, unsigned: bool)
    ensures len.Some? ==> LengthSuffix(len, unsigned) == "(" + IntToString(len.value) + ")" + UnsignedSuffix(unsigned)
    ensures len.None? && unsigned ==> LengthSuffix(len, unsigned)[0] == ' '
    ensures len.None? && !unsigned ==> LengthSuffix(len, unsigned) == ""
  {
  }

  /** Each unsigned integer type renders as its signed counterpart followed by " UNSIGNED". */
  lemma UnsignedAddsMarker(w: Option<u64>)
    ensures RenderDataType(UnsignedTinyInt(w)) == RenderDataType(TinyInt(w)) + " UNSIGNED"
    ensures RenderDataType(UnsignedSmallInt(w)) == RenderDataType(SmallInt(w)) + " UNSIGNED"
    ensures RenderDataType(UnsignedInt(w)) == RenderDataType(Int(w)) + " UNSIGNED"
    ensures RenderDataType(UnsignedBigInt(w)) == RenderDataType(BigInt(w)) + " UNSIGNED"
  {
    TinyIntTexts(w);
    SmallIntTexts(w);
    IntTexts(w);
    BigIntTexts(w);
    UnsignedMarker("TINYINT", w);
    UnsignedMarker("SMALLINT", w);
    UnsignedMarker("INT", w);
    UnsignedMarker("BIGINT", w);
  }

  lemma UnsignedMarker(name: string, w: Option<u64>)
    ensures FormatTypeWithOptionalLength(name, w, true) == FormatTypeWithOptionalLength(name, w, false) + " UNSIGNED"
  {
  }

  /** The integer types of each width, as `format_type_with_optional_length` is called for them. */
  lemma TinyIntTexts(w: Option<u64>)
    ensures RenderDataType(TinyInt(w)) == FormatTypeWithOptionalLength("TINYINT", w, false)
    ensures RenderDataType(UnsignedTinyInt(w)) == FormatTypeWithOptionalLength("TINYINT", w, true)
  {
  }

  lemma SmallIntTexts(w: Option<u64>)
    ensures RenderDataType(SmallInt(w)) == FormatTypeWithOptionalLength("SMALLINT", w, false)
    ensures RenderDataType(UnsignedSmallInt(w)) == FormatTypeWithOptionalLength("SMALLINT", w, true)
  {
  }

  lemma IntTexts(w: Option<u64>)
    ensures RenderDataType(Int(w)) == FormatTypeWithOptionalLength("INT", w, false)
    ensures RenderDataType(UnsignedInt(w)) == FormatTypeWithOptionalLength("INT", w, true)
  {
  }

  lemma BigIntTexts(w: Option<u64>)
    ensures RenderDataType(BigInt(w)) == FormatTypeWithOptionalLength("BIGINT", w, false)
    ensures RenderDataType(UnsignedBigInt(w)) == FormatTypeWithOptionalLength("BIGINT", w, true)
  {
  }

  /**
   * A DECIMAL with a precision renders as "NUMERIC(p)"; giving it a scale as
   * well inserts ",s" right before the closing parenthesis.
   */
  lemma ScaleBeforeParenthesis(p: u64, scale: u64)
    ensures RenderDataType(Decimal(Some(p), None)) == "NUMERIC(" + IntToString(p) + ")"
    ensures var t := RenderDataType(Decimal(Some(p), None));
            RenderDataType(Decimal(Some(p), Some(scale))) == t[..|t| - 1] + "," + IntToString(scale) + ")"
  {
    var head := "NUMERIC(" + IntToString(p);
    assert RenderDataType(Decimal(Some(p), None)) == head + ")";
    assert (head + ")")[..|head + ")"| - 1] == head;
  }

  /** ENUM and SET types list their members identically; only the keyword differs. */
  lemma EnumSetSameMembers(vals: seq<string>)
    ensures RenderDataType(Enum(vals))[..4] == "ENUM" && RenderDataType(Set(vals))[..3] == "SET"
    ensures RenderDataType(Enum(vals))[4..] == RenderDataType(Set(vals))[3..]
  {
    var rest := "(" + RenderQuotedList(vals) + ")";
    assert RenderDataType(Enum(vals)) == "ENUM" + rest;
    assert RenderDataType(Set(vals)) == "SET" + rest;
  }

  /**
   * The mapping from application types is not one-to-one: both date-time
   * types become TIME, so the column type cannot tell them apart.
   */
  lemma DateTimesCollide()
    ensures DataTypeFrom("DateTime<chrono::Local>") == DataTypeFrom("NaiveDateTime") == Some(Time)
  {
  }

  /**
   * The whole table: each of the thirteen application type names and the SQL
   * type it becomes.
   */
  lemma FromTable()
    ensures DataTypeFrom("i8") == Some(Char(None)) && DataTypeFrom("i16") == Some(SmallInt(None))
    ensures DataTypeFrom("i32") == Some(Int(None)) && DataTypeFrom("i64") == Some(BigInt(None))
    ensures DataTypeFrom("f32") == Some(Real) && DataTypeFrom("f64") == Some(Double)
    ensures DataTypeFrom("bool") == Some(Boolean) && DataTypeFrom("String") == Some(Varchar(Some(150)))
    ensures DataTypeFrom("NaiveDate") == Some(Date) && DataTypeFrom("NaiveDateTime") == Some(Time)
    ensures DataTypeFrom("DateTime<chrono::Local>") == Some(Time)
    ensures DataTypeFrom("&[u8]") == Some(Bytea) && DataTypeFrom("Uuid") == Some(Uuid)
  {
    FromIntegers();
    FromScalars();
    FromDates();
    FromBytes();
  }

  lemma FromIntegers()
    ensures DataTypeFrom("i8") == Some(Char(None)) && DataTypeFrom("i16") == Some(SmallInt(None))
    ensures DataTypeFrom("i32") == Some(Int(None)) && DataTypeFrom("i64") == Some(BigInt(None))
  {
  }

  lemma FromScalars()
    ensures DataTypeFrom("f32") == Some(Real) && DataTypeFrom("f64") == Some(Double)
    ensures DataTypeFrom("bool") == Some(Boolean) && DataTypeFrom("String") == Some(Varchar(Some(150)))
  {
  }

  lemma FromDates()
    ensures DataTypeFrom("NaiveDate") == Some(Date) && DataTypeFrom("NaiveDateTime") == Some(Time)
    ensures DataTypeFrom("DateTime<chrono::Local>") == Some(Time)
  {
  }

  lemma FromBytes()
    ensures DataTypeFrom("&[u8]") == Some(Bytea) && DataTypeFrom("Uuid") == Some(Uuid)
  {
  }

  /** Sample entries of the table: text becomes VARCHAR(150), `i32` INT and `i8` CHAR. */
  lemma FromSamples()
    ensures DataTypeFrom("String") == Some(Varchar(Some(150)))
    ensures DataTypeFrom("i32") == Some(Int(None)) && DataTypeFrom("i8") == Some(Char(None))
    ensures DataTypeFrom("u32").None? && DataTypeFrom("Vec<i32>").None?
  {
  }

  /**
   * An array type prints as its element type followed by "[]", and a custom
   * type with a one-part name prints as that name verbatim.
   */
  lemma ArrayAndCustom(t: DataType, n: Ident)
    requires Renderable(t)
    ensures RenderDataType(Array(t)) == RenderDataType(t) + "[]"
    ensures RenderDataType(Custom([n])) == n
  {
  }

  /** Custom names are not checked: a custom type named INT prints exactly like the built-in INT. */
  lemma CustomLikeBuiltin()
    ensures RenderDataType(Custom(["INT"])) == RenderDataType(Int(None))
  {
  }

  /** A column without options keeps the space after its type. */
  lemma ColumnWithoutOptions(name: Ident, t: DataType)
    requires Renderable(t)
    ensures RenderColumnDef(ColumnDef(name, t, [])) == name + " " + RenderDataType(t) + " "
  {
  }

  /** The name of a column option never reaches the text. */
  lemma OptionNameIgnored(o: ColumnOption, n1: Option<Ident>, n2: Option<Ident>)
    ensures RenderColumnOptionDef(ColumnOptionDef(n1, o)) == RenderColumnOptionDef(ColumnOptionDef(n2, o))
  {
  }

  /** Without constraints nothing stands between the last column and ")". */
  lemma CreateWithoutConstraints(c: CreateStmt)
    requires RenderableCreate(c) && c.constraints == []
    ensures RenderCreate(c)
         == "CREATE TABLE " + RenderObjectName(c.name) + " (" + CommaSeparated(RenderColumnDefs(c.columns)) + ")"
  {
  }

  /**
   * With two constraints the join adds its ", " in front of the second
   * constraint's own ", ", so the text holds ", , CONSTRAINT".
   */
  lemma CreateWithTwoConstraints(c: CreateStmt)
    requires RenderableCreate(c) && |c.constraints| == 2
    ensures RenderCreate(c)
         == "CREATE TABLE " + RenderObjectName(c.name) + " (" + CommaSeparated(RenderColumnDefs(c.columns))
            + (RenderTableConstraint(c.constraints[0]) + ", , CONSTRAINT "
               + RenderTableConstraint(c.constraints[1])[13..]) + ")"
  {
    var rs := RenderTableConstraints(c.constraints);
    assert rs == [RenderTableConstraint(c.constraints[0]), RenderTableConstraint(c.constraints[1])];
    SecondConstraintJoin(rs[0], rs[1]);
  }

  /**
   * For any non-empty constraint list, the first constraint's text follows
   * the columns directly and every later one is written after ", ", so
   * each constraint after the first is introduced by ", , CONSTRAINT ".
   */
  lemma ConstraintsLayout(c: CreateStmt)
    requires RenderableCreate(c) && |c.constraints| > 0
    ensures var rs := RenderTableConstraints(c.constraints);
      RenderCreate(c)
      == "CREATE TABLE " + RenderObjectName(c.name) + " (" + CommaSeparated(RenderColumnDefs(c.columns))
         + (rs[0] + Concat(Prefixed(rs[1..], ", "))) + ")"
    ensures var rs := RenderTableConstraints(c.constraints);
      forall i :: 1 <= i < |rs| ==> Prefixed(rs[1..], ", ")[i - 1] == ", , CONSTRAINT " + rs[i][13..]
  {
    var rs := RenderTableConstraints(c.constraints);
    ConstraintJoinLayout(rs);
  }

  /** The join of constraint texts, each of which starts with ", CONSTRAINT ". */
  lemma ConstraintJoinLayout(rs: seq<string>)
    requires |rs| > 0 && forall i :: 0 <= i < |rs| ==> ", CONSTRAINT " <= rs[i]
    ensures CommaSeparated(rs) == rs[0] + Concat(Prefixed(rs[1..], ", "))
    ensures forall i :: 1 <= i < |rs| ==> Prefixed(rs[1..], ", ")[i - 1] == ", , CONSTRAINT " + rs[i][13..]
  {
    JoinUnfold(rs, ", ");
    forall i | 1 <= i < |rs|
      ensures Prefixed(rs[1..], ", ")[i - 1] == ", , CONSTRAINT " + rs[i][13..]
    {
      assert rs[i] == ", CONSTRAINT " + rs[i][13..];
    }
  }

  /** Joining two constraint texts doubles the comma in front of the second. */
  lemma SecondConstraintJoin(first: string, second: string)
    requires ", CONSTRAINT " <= second
    ensures CommaSeparated([first, second]) == first + ", , CONSTRAINT " + second[13..]
  {
    JoinTwo(first, second, ", ");
    assert second == ", CONSTRAINT " + second[13..];
  }
}
