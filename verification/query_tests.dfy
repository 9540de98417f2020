/**
 * The statements of chela_query's own test module (chela_query/src/lib.rs):
 * each builder chain builds the literal statement the tests spell out, and
 * each statement renders to the text the tests expect — except the INSERT
 * example, whose expected text the renderer does not produce.
 */
module QueryTests {
  import opened Wrappers
  import opened Separated
  import A = Ast
  import CB = CreateBuilder
  import QB = QueryBuilder
  import InsertBuilder
  import opened ExprDisplay
  import opened QueryDisplay
  import opened CreateDisplay
  import opened InsertDisplay
  import opened Shorthand

  /** The hand-written statement of `create_fkey_stmt`. */
  function ArticleStmt(): A.CreateStmt
  {
    A.CreateStmt(
      ["article"],
      [A.ColumnDef("id", A.Custom(["SERIAL"]), [A.ColumnOptionDef(None, A.Unique(true))]),
       A.ColumnDef("author_id", A.Int(None), [A.ColumnOptionDef(None, A.NotNull)])],
      [A.TableForeignKey(Some("fk_author"), ["author_id"], ["author"], ["id"])])
  }

  /** The hand-written statement of `create_stmt`. */
  function AlphabetStmt(): A.CreateStmt
  {
    A.CreateStmt(
      ["alphabet"],
      [A.ColumnDef("id", A.Custom(["SERIAL"]), [A.ColumnOptionDef(None, A.Unique(true))]),
       A.ColumnDef("letter", A.Varchar(None), [A.ColumnOptionDef(None, A.NotNull)])],
      [])
  }

  /** The builder chain the two CREATE TABLE tests share up to the second column. */
  function TwoColumns(table: string, second: string, t: A.DataType): CB.Builder
  {
    CB.Column(CB.Column(CreateTable(table, []), "id", Serial(), PrimaryKeyUnique()), second, t, NotNull())
  }

  /** The two leading column texts both CREATE TABLE tests expect. */
  lemma TwoColumnsText(table: string, second: string, t: A.DataType, typeText: string)
    requires Renderable(t) && RenderDataType(t) == typeText
    ensures RenderableCreate(CB.Build(TwoColumns(table, second, t)))
    ensures CommaSeparated(RenderColumnDefs(TwoColumns(table, second, t).columns))
         == "id SERIAL PRIMARY KEY" + ", " + (second + " " + typeText + " " + "NOT NULL")
  {
    var b := TwoColumns(table, second, t);
    var id := A.ColumnDef("id", Serial(), PrimaryKeyUnique());
    var c := A.ColumnDef(second, t, NotNull());
    assert b.columns == [id, c];
    assert RenderColumnDefs(b.columns) == [RenderColumnDef(id), RenderColumnDef(c)];
    IdColumnText();
    JoinTwo(RenderColumnDef(id), RenderColumnDef(c), ", ");
  }

  /** The `id SERIAL PRIMARY KEY` column both CREATE TABLE tests start with. */
  lemma IdColumnText()
    ensures RenderColumnDef(A.ColumnDef("id", Serial(), PrimaryKeyUnique())) == "id SERIAL PRIMARY KEY"
  {
  }

  /** The constraint text of the foreign key `fk_author`. */
  lemma AuthorConstraintText()
    ensures ", CONSTRAINT " + "fk_author" + " FOREIGN KEY (" + "author_id" + ") REFERENCES " + "author"
            + " (" + "id" + ")"
         == ", CONSTRAINT fk_author FOREIGN KEY (author_id) REFERENCES author (id)"
  {
    var s := ", CONSTRAINT " + "fk_author" + " FOREIGN KEY (";
    assert s == ", CONSTRAINT fk_author FOREIGN KEY (";
    var t := s + "author_id" + ") REFERENCES ";
    assert t == ", CONSTRAINT fk_author FOREIGN KEY (author_id) REFERENCES ";
  }

  /**
   * `create_table_fkey_test`: the builder chain with a foreign key builds the
   * hand-written statement, and that statement renders as the test expects:
   * "CREATE TABLE article (id SERIAL PRIMARY KEY, author_id INT NOT NULL,
   * CONSTRAINT fk_author FOREIGN KEY (author_id) REFERENCES author (id))",
   * written below in the pieces the renderer writes it in.
   */
  lemma ArticleTest()
    ensures CB.Build(CB.ForeignKeyConstraint(TwoColumns("article", "author_id", A.Int(None)),
                                             "fk_author", "author_id", "author", "id")) == ArticleStmt()
    ensures RenderableCreate(ArticleStmt())
    ensures RenderCreate(ArticleStmt())
         == "CREATE TABLE article (" + "id SERIAL PRIMARY KEY, author_id INT NOT NULL"
            + ", CONSTRAINT fk_author FOREIGN KEY (author_id) REFERENCES author (id)" + ")"
  {
    var b := TwoColumns("article", "author_id", A.Int(None));
    assert RenderDataType(A.Int(None)) == "INT";
    TwoColumnsText("article", "author_id", A.Int(None), "INT");
    ForeignKeyAddsText(b, "fk_author", "author_id", "author", "id");
    assert RenderObjectName(b.name) == "article";
    ArticlePiecesText();
    AuthorConstraintText();
  }

  lemma ArticlePiecesText()
    ensures "CREATE TABLE " + "article" + " (" == "CREATE TABLE article ("
    ensures "id SERIAL PRIMARY KEY" + ", " + ("author_id" + " " + "INT" + " " + "NOT NULL")
         == "id SERIAL PRIMARY KEY, author_id INT NOT NULL"
  {
  }

  /**
   * `create_table_test`: the two-column builder chain builds the hand-written
   * statement, which renders with no constraint text, as the test expects.
   */
  lemma AlphabetTest()
    ensures CB.Build(TwoColumns("alphabet", "letter", A.Varchar(None))) == AlphabetStmt()
    ensures RenderableCreate(AlphabetStmt())
    ensures RenderCreate(AlphabetStmt())
         == "CREATE TABLE alphabet (" + "id SERIAL PRIMARY KEY, letter VARCHAR NOT NULL" + ")"
  {
    var b := TwoColumns("alphabet", "letter", A.Varchar(None));
    assert RenderDataType(A.Varchar(None)) == "VARCHAR";
    TwoColumnsText("alphabet", "letter", A.Varchar(None), "VARCHAR");
    CreateWithoutConstraints(CB.Build(b));
    assert RenderObjectName(b.name) == "alphabet";
    AlphabetPiecesText();
  }

  lemma AlphabetPiecesText()
    ensures "CREATE TABLE " + "alphabet" + " (" == "CREATE TABLE alphabet ("
    ensures "id SERIAL PRIMARY KEY" + ", " + ("letter" + " " + "VARCHAR" + " " + "NOT NULL")
         == "id SERIAL PRIMARY KEY, letter VARCHAR NOT NULL"
  {
  }

  /** The hand-written query of `find_orders_in_list`. */
  function OrdersInListQuery(): A.QueryStmt
  {
    A.QueryStmt(
      A.SelectBody(A.Select(
        [A.Wildcard], ["orders"],
        Some(A.InList(A.Identifier("user_id"),
                      [A.Value(A.Number("1", false)), A.Value(A.Number("2", false)),
                       A.Value(A.Number("3", false)), A.Value(A.Number("4", false))], false)),
        None, [], None)),
      None, None)
  }

  /** The ids 1 to 4 in decimal, comma-separated. */
  lemma OneToFourText()
    ensures CommaSeparated(IdTexts([1, 2, 3, 4])) == "1, 2, 3, 4"
  {
    Decimal.SmallDigits();
    var texts := IdTexts([1, 2, 3, 4]);
    assert texts == ["1", "2", "3", "4"];
    assert texts[..1] == ["1"] && texts[..2] == ["1", "2"] && texts[..3] == ["1", "2", "3"];
    assert Join(["1", "2"], ", ") == "1, 2";
    assert Join(["1", "2", "3"], ", ") == "1, 2, 3";
  }

  /**
   * `query_in_list_test`: `select_table("orders").where_("user_id").in_list([1, 2, 3, 4])`
   * builds the hand-written query, which renders as
   * "SELECT * FROM orders WHERE user_id IN (1, 2, 3, 4)".
   */
  lemma OrdersInListTest()
    ensures QB.Build(QB.InList(QB.Where(SelectTable("orders"), "user_id"), [1, 2, 3, 4])) == OrdersInListQuery()
    ensures RenderQuery(OrdersInListQuery()) == "SELECT * FROM orders WHERE user_id IN (1, 2, 3, 4)"
  {
    Decimal.SmallDigits();
    assert QB.NumberLiterals([1, 2, 3, 4])
        == [A.Value(A.Number("1", false)), A.Value(A.Number("2", false)),
            A.Value(A.Number("3", false)), A.Value(A.Number("4", false))];
    InListQueryText("orders", "user_id", [1, 2, 3, 4]);
    OneToFourText();
    OrdersPiecesText();
  }

  lemma OrdersPiecesText()
    ensures "SELECT * FROM " + "orders" + " WHERE " + ("user_id" + " IN (" + "1, 2, 3, 4" + ")")
         == "SELECT * FROM orders WHERE user_id IN (1, 2, 3, 4)"
  {
  }

  /** The hand-written query of `find_first_user`. */
  function FirstUserQuery(): A.QueryStmt
  {
    A.QueryStmt(A.SelectBody(A.Select([A.Wildcard], ["users"], None, None, [], None)), Some("id"), Some(1))
  }

  /** The first-user chain builds the hand-written query. */
  lemma FirstUserChain()
    ensures QB.Build(QB.Limit(QB.OrderBy(SelectTable("users"), Some("id")), Some(1))) == FirstUserQuery()
  {
  }

  lemma FirstUserPiecesText()
    ensures "SELECT * FROM " + "users" + " ORDER BY " + "id" + " LIMIT " + "1"
         == "SELECT * FROM users ORDER BY id LIMIT 1"
  {
  }

  /**
   * `query_test` and `select_builder_test`: the first-user chain builds the
   * hand-written query, which renders ORDER BY before LIMIT.
   */
  lemma FirstUserTest()
    ensures QB.Build(QB.Limit(QB.OrderBy(SelectTable("users"), Some("id")), Some(1))) == FirstUserQuery()
    ensures RenderQuery(FirstUserQuery()) == "SELECT * FROM users ORDER BY id LIMIT 1"
  {
    FirstUserChain();
    OrderLimitQueryText("users", "id", 1);
    assert Decimal.IntToString(1) == "1" by { Decimal.SmallDigits(); }
    FirstUserPiecesText();
  }

  /** The statement of `insert_test`. */
  function TestInsert(): A.InsertStmt
  {
    A.InsertStmt(true, "test", [],
      A.QueryStmt(A.ValuesBody(A.Values([[A.Value(A.SingleQuotedString("test"))]])), None, None))
  }

  /**
   * `insert_test`: the renderer writes "()" for the empty column list, a
   * space before VALUES and no ";", so its text differs from the one the
   * test expects.
   */
  lemma InsertTest()
    ensures RenderInsert(TestInsert()) == "INSERT INTO test () VALUES ('test')"
    ensures RenderInsert(TestInsert()) != "INSERT INTO test VALUES ('test');"
  {
    OneStringInsertText("test", "test");
    InsertPiecesText();
    var r := RenderInsert(TestInsert());
    assert r[17] != "INSERT INTO test VALUES ('test');"[17];
  }

  /** A statement inserting one string literal, without columns, in the pieces the renderer writes. */
  lemma OneStringInsertText(table: string, v: string)
    ensures RenderInsert(A.InsertStmt(true, table, [],
              A.QueryStmt(A.ValuesBody(A.Values([[A.Value(A.SingleQuotedString(v))]])), None, None)))
         == "INSERT INTO " + table + " (" + "" + ") " + ("VALUES " + ("(" + ("'" + v + "'") + ")"))
  {
    var row := [A.Value(A.SingleQuotedString(v))];
    OneRowQueryText(row);
    assert RenderExprs(row) == ["'" + v + "'"];
    JoinShort(", ");
  }

  lemma InsertPiecesText()
    ensures "INSERT INTO " + "test" + " (" + "" + ") " + ("VALUES " + ("(" + ("'" + "test" + "'") + ")"))
         == "INSERT INTO test () VALUES ('test')"
  {
  }
}
