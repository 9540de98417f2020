/**
 * The migration side of the `chela` crate (chela/src/lib.rs, chela/src/display.rs,
 * chela/src/migrator.rs): an entity becomes a CREATE TABLE statement, the
 * application start-up turns every entity into one migration, and migrations
 * render as `;`-terminated statements written back to back.
 *
 * chela/src/migrator.rs repeats `create_table` and `Migrations` word for word
 * and is not compiled into the crate; the definitions here stand for both
 * copies.  This crate's `Column` is a plain name/type-text pair, distinct from
 * the column definitions of the query crate.
 */
module Chela {
  import opened Separated

  /** A column as the migration crate holds it: a name and the SQL type text. */
  datatype Column = Column(columnName: string, columnType: string)

  /** A mapped struct: its table, its own name, and its fields as columns. */
  datatype Entity = Entity(tableName: string, structName: string, columns: seq<Column>)

  datatype CreateStmt = CreateStmt(tableName: string, columns: seq<Column>)

  /** `Statement`: only CREATE TABLE statements exist. */
  datatype Statement = Create(create: CreateStmt)

  datatype Migrations = Migrations(statements: seq<Statement>)

  datatype Schema = Schema(entities: seq<Entity>)

  /** The application object, without its repository registry. */
  datatype App = App(schema: Schema, migrations: Migrations)

  /**
   * `Migrator::create_table`: a statement named after the entity's table that
   * receives the entity's columns one push at a time.  The result depends on
   * the table name and the columns only, never on the struct name.
   */
  method CreateTable(e: Entity) returns (c: CreateStmt)
    ensures c.tableName == e.tableName
    ensures |c.columns| == |e.columns|
    ensures forall i :: 0 <= i < |e.columns| ==> c.columns[i] == e.columns[i]
  {
    c := CreateStmt(e.tableName, []);
    var i := 0;
    while i < |e.columns|
      invariant 0 <= i <= |e.columns|
      invariant c.tableName == e.tableName
      invariant c.columns == e.columns[..i]
    {
      c := c.(columns := c.columns + [e.columns[i]]);
      i := i + 1;
    }
  }

  /** The statement an entity's migration holds. */
  function EntityStatement(e: Entity): Statement
  {
    Create(CreateStmt(e.tableName, e.columns))
  }

  /**
   * `Schema::new`: each boxed value converted with `to_entity`, in order.  The
   * conversion is generated code and is a parameter here.
   */
  function NewSchema<T>(values: seq<T>, toEntity: T -> Entity): (r: Schema)
    ensures |r.entities| == |values|
    ensures forall i :: 0 <= i < |values| ==> r.entities[i] == toEntity(values[i])
  {
    Schema(seq(|values|, i requires 0 <= i < |values| => toEntity(values[i])))
  }

  /**
   * `Chela::new`: the schema of the converted entities, and one CREATE TABLE
   * migration per entity, in entity order.
   */
  method NewApp<T>(values: seq<T>, toEntity: T -> Entity) returns (app: App)
    ensures app.schema == NewSchema(values, toEntity)
    ensures |app.migrations.statements| == |values|
    ensures forall i :: 0 <= i < |values| ==>
              app.migrations.statements[i] == EntityStatement(toEntity(values[i]))
  {
    var schema := NewSchema(values, toEntity);
    var statements: seq<Statement> := [];
    var i := 0;
    while i < |schema.entities|
      invariant 0 <= i <= |schema.entities|
      invariant |statements| == i
      invariant forall k :: 0 <= k < i ==> statements[k] == EntityStatement(schema.entities[k])
    {
      var c := CreateTable(schema.entities[i]);
      assert c.columns == schema.entities[i].columns;
      statements := statements + [Create(c)];
      i := i + 1;
    }
    app := App(schema, Migrations(statements));
  }

  /** `Migrations::new`: exactly the given statements, in order. */
  function NewMigrations(statements: seq<Statement>): (r: Migrations)
    ensures |r.statements| == |statements|
    ensures forall i :: 0 <= i < |statements| ==> r.statements[i] == statements[i]
  {
    Migrations(statements)
  }

  /**
   * `add_migration`: pushes onto the list it was handed.  The receiver is
   * moved into the call and dropped, so the caller never sees this value.
   */
  function AddMigration(m: Migrations, s: Statement): (r: Migrations)
    ensures |r.statements| == |m.statements| + 1
    ensures r.statements[..|m.statements|] == m.statements && r.statements[|m.statements|] == s
  {
    Migrations(m.statements + [s])
  }

  /** `Column`'s `Display`: the name, one space, the type text verbatim. */
  function RenderColumn(c: Column): (r: string)
    ensures |r| == |c.columnName| + 1 + |c.columnType|
    ensures r[..|c.columnName|] == c.columnName && r[|c.columnName|] == ' '
    ensures r[|c.columnName| + 1..] == c.columnType
  {
    c.columnName + " " + c.columnType
  }

  function RenderColumns(cs: seq<Column>): (r: seq<string>)
    ensures |r| == |cs|
    ensures forall i :: 0 <= i < |cs| ==> r[i] == RenderColumn(cs[i])
  {
    seq(|cs|, i requires 0 <= i < |cs| => RenderColumn(cs[i]))
  }

  /** `CreateStmt`'s `Display`: "CREATE TABLE t (" + the columns comma-separated + ")". */
  function RenderCreate(c: CreateStmt): (r: string)
    ensures "CREATE TABLE " + c.tableName + " (" <= r
    ensures r[|r| - 1] == ')'
  {
    "CREATE TABLE " + c.tableName + " (" + CommaSeparated(RenderColumns(c.columns)) + ")"
  }

  /** `Statement`'s `Display`: the statement followed by ";". */
  function RenderStatement(s: Statement): (r: string)
    ensures |r| > 0 && r[|r| - 1] == ';'
    ensures r[..|r| - 1] == RenderCreate(s.create)
  {
    RenderCreate(s.create) + ";"
  }

  function RenderStatements(ss: seq<Statement>): (r: seq<string>)
    ensures |r| == |ss|
    ensures forall i :: 0 <= i < |ss| ==> r[i] == RenderStatement(ss[i])
  {
    seq(|ss|, i requires 0 <= i < |ss| => RenderStatement(ss[i]))
  }

  /** `Migrations`' `Display`: every statement written in turn, nothing between. */
  function RenderMigrations(m: Migrations): string
  {
    Concat(RenderStatements(m.statements))
  }

  /** No migrations render as the empty text. */
  lemma EmptyMigrations()
    ensures RenderMigrations(Migrations([])) == ""
  {
  }

  /** The text of a concatenation of migration lists is the concatenation of their texts. */
  lemma MigrationsAppend(a: seq<Statement>, b: seq<Statement>)
    ensures RenderMigrations(Migrations(a + b)) == RenderMigrations(Migrations(a)) + RenderMigrations(Migrations(b))
  {
    assert RenderStatements(a + b) == RenderStatements(a) + RenderStatements(b);
    ConcatAppend(RenderStatements(a), RenderStatements(b));
  }

  /**
   * Appending one statement appends its `;`-terminated text, so every
   * statement of a migration list closes with ";".
   */
  lemma MigrationsAppendOne(a: seq<Statement>, s: Statement)
    ensures RenderMigrations(Migrations(a + [s])) == RenderMigrations(Migrations(a)) + (RenderCreate(s.create) + ";")
  {
    MigrationsAppend(a, [s]);
    assert RenderStatements([s]) == [RenderStatement(s)];
    ConcatSingleton(RenderStatement(s));
  }

  /**
   * The migration of a single entity, rendered: its table name and its
   * columns as "name type", and neither the struct name nor anything else.
   */
  lemma EntityMigrationText(e: Entity)
    ensures RenderMigrations(Migrations([EntityStatement(e)]))
         == "CREATE TABLE " + e.tableName + " (" + CommaSeparated(RenderColumns(e.columns)) + ")" + ";"
  {
    var s := EntityStatement(e);
    MigrationsAppendOne([], s);
    assert [] + [s] == [s];
    EmptyMigrations();
  }

  /** Two entities that differ only in their struct name migrate identically. */
  lemma StructNameIgnored(e: Entity, structName: string)
    ensures EntityStatement(e.(structName := structName)) == EntityStatement(e)
  {
  }
}
