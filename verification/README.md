# chela in Dafny

A model of the pure core of `chela`, a small Rust ORM for PostgreSQL. The
model covers these parts:

- **The SQL statement tree and its text renderer** (`chela_query`). It covers
  values, expressions, SELECT/VALUES queries, CREATE TABLE statements with
  their data types, column options and foreign-key constraints, and INSERT
  statements. Each node's `Display` becomes a function to `string`.
- **The fluent builders** (`chela_query/src/builder.rs`). Each builder method
  becomes a function from builder to builder whose contract says which field
  changes and that nothing else does. The free shorthands are included, and
  so are the texts that builder chains render to.
- **The builder tests** (`chela_query/src/lib.rs`). Each builder chain builds
  the hand-written statement, and that statement renders to the expected text.
- **The migration crate** (`chela/src`). An entity becomes a CREATE TABLE
  statement, and application start-up makes one migration per entity.
  Migrations render as `;`-terminated statements written back to back.
  `chela/src/migrator.rs` is an uncompiled copy of `create_table` and
  `Migrations`, so one definition stands for both files.
- **The decisions of the `ToEntity` derive** (`chela_derive`):
  - the table name is the lower-cased struct name plus "s";
  - `table_to_struct_name` maps a table name back to a struct name;
  - the per-field column policy;
  - has-many attributes accumulate across fields;
  - the preload map is built from the relations.
  A field is an abstract record: its name, its type (the first path segment
  and the text), its `auto_increment` values and its has-many argument lists.
- **The example application** (`example/src/main.rs`):
  - the INSERT column filter;
  - the preload lookup;
  - the reassembly step of `load`, which groups fetched orders and hands each
    user a group.

The modules follow the source files:

| module | file |
|---|---|
| `Separated` | the join helper, both copies |
| `Decimal` | integer `Display` |
| `Ast` | the statement tree |
| `ExprDisplay`, `QueryDisplay`, `CreateDisplay`, `InsertDisplay` | the renderers |
| `CreateBuilder`, `DataTypeBuilder`, `OptionBuilder`, `QueryBuilder`, `InsertBuilder`, `Shorthand` | builder.rs |
| `QueryTests` | the test module |
| `Chela` | the migration crate |
| `Derive` | the derive macro |
| `Example` | the example application |

Every `unwrap` or `panic!` of the core becomes a precondition or an `Option`
result:
- `DataType::from` on an unknown type name gives `None`.
- Indexing a map with a missing key is a precondition.
- In the derive, `table_to_struct_name` slices the table name and panics
  when the name is too short for the slice. `ParseAttribute` and everything
  built on it then return `None`.
- A relation recorded before any `foreign_key` is given expands to
  `foreign_key: .to_string()`, which does not compile; `ToEntity` returns
  `None` for it.
- A foreign-key constraint without a name, or a DECIMAL with a scale but no
  precision, is excluded by the `RenderableCreate` and `Renderable`
  predicates.

Integer widths:
- `u64`, `i64` and `i32` are subset types of `int`.
- An `i32` id is printed in decimal by `IntToString`, with a leading '-' when
  negative.
- An `f64` price is only ever copied, so it is kept as its 64 raw bits.

Where the code and its test disagree, the model follows the code:
- `insert_test` (chela_query/src/lib.rs:146-164) expects
  `INSERT INTO test VALUES ('test');`.
- The renderer writes `INSERT INTO test () VALUES ('test')`.
- `QueryTests.InsertTest` proves the renderer's text and proves that it
  differs from the expected one.

Where the pieces of the snapshot do not fit together, the model follows the
file that owns the behaviour:
- `Select.from` is a `String` in query.rs but a list of tables in builder.rs
  and the tests. It is modelled as a list of table names, comma-separated.
- `Expr` has an `Identifier` arm. query.rs lacks it, but the builder and the
  tests build one.
- The derive produces the query crate's column definitions (name, data type,
  options). The migration crate's `Entity` holds its own `Column` (name, type
  text), so the `Chela` module takes its entities as given.

## Model

| member | source | states |
|---|---|---|
| Separated.DisplaySeparated | chela_query/src/display.rs:87-95 | the writer loop's output is the items with the separator between each neighbouring pair, none before the first |
| Separated.JoinShort | chela_query/src/display.rs:87-95 | an empty list writes nothing; a one-item list writes that item with no separator |
| Separated.JoinUnfold | chela_query/src/display.rs:87-95 | a non-empty join is the first item followed by separator+item for each later item, in order |
| Separated.JoinLength | chela_query/src/display.rs:87-95 | n items give the items' total length plus exactly n-1 separators |
| Separated.JoinAppend | chela_query/src/display.rs:87-95 | joining two non-empty lists back to back puts exactly one separator at the seam |
| Separated.ConcatAppend | chela/src/display.rs:70-77 | writing a list of texts with nothing between them distributes over list concatenation |
| Decimal.IntToString | chela_query/src/builder.rs:255 | an integer's decimal text is non-empty, has a '-' first exactly when the number is negative, and digits otherwise |
| Decimal.NatToString | chela_query/src/create.rs:357 | a length's text is a non-empty digit string without leading zeros, and "0" exactly for zero |
| Decimal.IntRoundTrip | chela_query/src/builder.rs:255 | parsing an integer's decimal text gives the integer back |
| Decimal.IntToStringInjective | chela_query/src/query.rs:70-72 | different integers (ids, limits, lengths) print differently |
| ExprDisplay.RenderValue | chela_query/src/values.rs:11-24 | a string literal is the text between single quotes, unescaped; a number is its digits, with '-' in front exactly when negated |
| ExprDisplay.RenderValueInjective | chela_query/src/values.rs:11-24 | two well-formed values that print the same are the same value, so strings and numbers cannot be confused |
| ExprDisplay.RenderValues | chela_query/src/values.rs:29-31 | a VALUES body always starts with "VALUES " |
| ExprDisplay.ValuesAppendRow | chela_query/src/values.rs:32-41 | each further row adds its parenthesised, comma-separated group directly after the previous one, with no separator |
| ExprDisplay.SingleEmptyRow | chela_query/src/values.rs:31-41 | one empty row prints as "VALUES ()" |
| ExprDisplay.InListNegation | chela_query/src/query.rs:110-119 | a membership test prints "subject IN (list)", and its negation puts "NOT " before the subject, not before IN |
| ExprDisplay.RenderExpr | chela_query/src/query.rs:107-121 | an IN list ends with ")" and starts with "NOT " when negated; an identifier prints as its name |
| ExprDisplay.LeafExprs | chela_query/src/query.rs:120 | a value expression prints exactly as the value, and an identifier prints as its bare, unquoted name |
| QueryDisplay.RenderSelectItems | chela_query/src/query.rs:56-62 | every projection item prints as "*" |
| QueryDisplay.RenderSelect | chela_query/src/query.rs:86-105 | "SELECT items FROM tables" always comes first, and it is the whole text when there is no WHERE, GROUP BY or HAVING |
| QueryDisplay.SelectClauseOrder | chela_query/src/query.rs:94-102 | WHERE, GROUP BY and HAVING appear in that fixed order |
| QueryDisplay.WhereFollowsHead | chela_query/src/query.rs:94-102 | whatever GROUP BY and HAVING hold, " WHERE " follows the head exactly when a selection is present, with the selection's text right after it |
| QueryDisplay.SortByNotRendered | chela_query/src/query.rs:86-105 | changing the SORT BY list never changes the text |
| QueryDisplay.RenderSetExpr | chela_query/src/query.rs:77-84 | a body prints exactly as its SELECT or its VALUES |
| QueryDisplay.RenderQuery | chela_query/src/query.rs:64-75 | the body's text comes first, and without ORDER BY or LIMIT it is the whole text |
| QueryDisplay.OrderThenLimit | chela_query/src/query.rs:64-75 | ORDER BY is written before LIMIT, and the limit is printed in decimal |
| CreateDisplay.RenderObjectName | chela_query/src/create.rs:91 | a single-part name prints as that part |
| CreateDisplay.RenderDataType | chela_query/src/create.rs:267-347 | an array's text ends with "[]"; the other texts are pinned by StartsWithKeyword, KeywordOnlyTexts, SizedTypeTexts, FormatTypeWithOptionalLength, UnsignedAddsMarker, ScaleBeforeParenthesis, EnumSetSameMembers and ArrayAndCustom |
| CreateDisplay.StartsWithKeyword | chela_query/src/create.rs:267-347 | every type's text starts with its variant's SQL keyword, an array with its element's, for all types |
| CreateDisplay.KeywordOnlyTexts | chela_query/src/create.rs:267-347 | UUID, REAL, DOUBLE, BOOLEAN, DATE, TIME, TIMESTAMP, INTERVAL, REGCLASS, TEXT, STRING and BYTEA print their keyword and nothing else |
| CreateDisplay.SizedTypeTexts | chela_query/src/create.rs:267-347 | CLOB, BINARY, VARBINARY and BLOB always print their size in parentheses |
| CreateDisplay.FormatTypeWithOptionalLength | chela_query/src/create.rs:349-363 | the type name comes first; without a length and signed, it is the whole text |
| CreateDisplay.FormatTypeInjective | chela_query/src/create.rs:349-363 | the length and the UNSIGNED marker can be read back from the text: equal texts mean equal lengths and equal signedness |
| CreateDisplay.UnsignedAddsMarker | chela_query/src/create.rs:290-311 | each unsigned integer type prints as its signed counterpart followed by " UNSIGNED" |
| CreateDisplay.ScaleBeforeParenthesis | chela_query/src/create.rs:282-288 | DECIMAL(p) prints "NUMERIC(p)", and adding a scale inserts ",s" before the closing parenthesis |
| CreateDisplay.EnumSetSameMembers | chela_query/src/create.rs:325-344 | ENUM and SET list their members identically; only the keyword differs |
| CreateDisplay.ArrayAndCustom | chela_query/src/create.rs:323-324 | an array prints as its element type followed by "[]", and a custom type prints its one-part name verbatim |
| CreateDisplay.CustomLikeBuiltin | chela_query/src/create.rs:324 | custom names are not checked: a custom type named INT prints exactly like the built-in INT |
| CreateDisplay.EscapeSingleQuote | chela_query/src/create.rs:331 | escaping never shortens a text and leaves a text without quotes unchanged |
| CreateDisplay.RenderColumnOption | chela_query/src/create.rs:168-195 | a unique option prints PRIMARY KEY exactly when primary and UNIQUE otherwise; NOT NULL and NULL print as themselves |
| CreateDisplay.ExprOptionTexts | chela_query/src/create.rs:173-192 | DEFAULT prints its expression after the keyword; CHECK prints it in parentheses |
| CreateDisplay.RenderColumnOptionDef | chela_query/src/create.rs:131-135 | the text of the option alone, whatever its name: PRIMARY KEY exactly when primary, NOT NULL for NotNull |
| CreateDisplay.OptionNameIgnored | chela_query/src/create.rs:131-135 | an option's name never reaches the text |
| CreateDisplay.RenderColumnDef | chela_query/src/create.rs:113-123 | the name, a space, the type and a space come first; with one option the option's text follows directly |
| CreateDisplay.ColumnWithoutOptions | chela_query/src/create.rs:113-123 | a column without options keeps the trailing space after its type |
| CreateDisplay.RenderTableConstraint | chela_query/src/create.rs:67-86 | a foreign key needs a name and writes its own leading ", CONSTRAINT " |
| CreateDisplay.RenderCreate | chela_query/src/create.rs:89-103 | the text starts with "CREATE TABLE name (" followed by the comma-separated column definitions, and ends with ")" |
| CreateDisplay.ConstraintsLayout | chela_query/src/create.rs:89-103 | with one or more constraints, the first follows the columns directly and every later one is introduced by ", , CONSTRAINT ": the join's separator plus the constraint's own comma |
| CreateDisplay.CreateWithoutConstraints | chela_query/src/create.rs:89-103 | without constraints nothing stands between the last column and ")" |
| CreateDisplay.CreateWithTwoConstraints | chela_query/src/create.rs:89-103 | with two constraints the second is preceded by ", , CONSTRAINT", the join's separator plus the constraint's own comma |
| CreateDisplay.DataTypeFrom | chela_query/src/create.rs:444-466 | a type name maps to a SQL type exactly when it is one of the 13 supported names, and the result always renders |
| CreateDisplay.FromTable | chela_query/src/create.rs:444-466 | each of the 13 supported names maps to its SQL type: i8 to CHAR, i16 to SMALLINT, i32 to INT, i64 to BIGINT, f32 to REAL, f64 to DOUBLE, bool to BOOLEAN, String to VARCHAR(150), NaiveDate to DATE, NaiveDateTime and `DateTime<chrono::Local>` to TIME, `&[u8]` to BYTEA, Uuid to UUID |
| CreateDisplay.FromSamples | chela_query/src/create.rs:444-466 | `String` maps to VARCHAR(150), `i32` to INT and `i8` to CHAR; names outside the table such as `u32` have no mapping |
| CreateDisplay.DateTimesCollide | chela_query/src/create.rs:456-457 | the two date-time types both map to TIME |
| InsertDisplay.RenderInsert | chela_query/src/insert.rs:28-38 | the text starts with "INSERT INTO table (" and ends with the source query's text |
| InsertDisplay.IntoNotRendered | chela_query/src/insert.rs:28-38 | the INTO flag has no effect on the text |
| InsertDisplay.EmptyColumnsKeepParentheses | chela_query/src/insert.rs:28-38 | an empty column list still prints "()" |
| InsertDisplay.InsertEndsWithLastRow | chela_query/src/insert.rs:28-38 | an insert of VALUES rows ends with the last row's ")", with no ";" |
| CreateBuilder.New | chela_query/src/builder.rs:37-48 | a new builder has no name, exactly the given columns and no constraints |
| CreateBuilder.ForeignKeyConstraint | chela_query/src/builder.rs:50-72 | appends one named foreign key over one column, referring to one column of a single-part table; name and columns unchanged |
| CreateBuilder.Name | chela_query/src/builder.rs:73-76 | the name becomes the single part given; columns and constraints unchanged |
| CreateBuilder.Column | chela_query/src/builder.rs:78-90 | appends exactly one column at the end; name and constraints unchanged |
| CreateBuilder.Columns | chela_query/src/builder.rs:92-99 | as written: the builder comes back unchanged, whatever the batch |
| CreateBuilder.ColumnsAppending | chela_query/src/builder.rs:92-99 | as intended: the batch's columns are appended in order; name and constraints unchanged |
| CreateBuilder.ColumnsDropsTheBatch | chela_query/src/builder.rs:92-99 | a one-column batch yields no column as written, and that column as intended |
| CreateBuilder.Build | chela_query/src/builder.rs:101-107 | the statement carries the builder's name, columns and constraints |
| DataTypeBuilder.New | chela_query/src/builder.rs:115-119 | starts from a custom type with an empty name |
| DataTypeBuilder.Varchar | chela_query/src/builder.rs:121-124 | the type becomes VARCHAR with the given length |
| DataTypeBuilder.Int | chela_query/src/builder.rs:126-129 | the type becomes INT with the given width |
| DataTypeBuilder.Serial | chela_query/src/builder.rs:131-136 | the type becomes the custom type SERIAL |
| DataTypeBuilder.Build | chela_query/src/builder.rs:138-140 | yields the chosen type |
| OptionBuilder.New | chela_query/src/builder.rs:159-161 | starts with no options |
| OptionBuilder.AddOption | chela_query/src/builder.rs:163-170 | appends one named option, keeping the earlier ones |
| OptionBuilder.PrimaryKeyUnique | chela_query/src/builder.rs:172-179 | appends one unnamed primary-key option, keeping the earlier ones |
| OptionBuilder.NotNull | chela_query/src/builder.rs:181-188 | appends one unnamed NOT NULL option, keeping the earlier ones |
| OptionBuilder.Build | chela_query/src/builder.rs:190-192 | yields the options in order |
| QueryBuilder.New | chela_query/src/builder.rs:222-236 | everything empty, and the pending WHERE subject is the empty identifier |
| QueryBuilder.Select | chela_query/src/builder.rs:237-241 | the projection becomes "*"; every other field unchanged |
| QueryBuilder.From | chela_query/src/builder.rs:243-250 | the query reads exactly the one named table; every other field unchanged |
| QueryBuilder.NumberLiterals | chela_query/src/builder.rs:253-256 | each id becomes a non-negated number literal holding its decimal text, in order |
| QueryBuilder.InList | chela_query/src/builder.rs:252-264 | the selection becomes "pending subject IN (ids)"; every clause field unchanged |
| QueryBuilder.Where | chela_query/src/builder.rs:266-269 | only the pending subject changes; an existing selection is kept |
| QueryBuilder.WhereAfterInList | chela_query/src/builder.rs:252-269 | a `where_` after `in_list` does not change the built query |
| QueryBuilder.InListWithoutWhere | chela_query/src/builder.rs:222-264 | without any `where_`, `in_list` tests the empty identifier |
| QueryBuilder.GroupBy | chela_query/src/builder.rs:271-274 | sets only the grouping |
| QueryBuilder.OrderBy | chela_query/src/builder.rs:276-279 | sets only the order |
| QueryBuilder.Limit | chela_query/src/builder.rs:281-284 | sets only the limit |
| QueryBuilder.SortBy | chela_query/src/builder.rs:286-289 | clears only the SORT BY list |
| QueryBuilder.Build | chela_query/src/builder.rs:291-304 | a SELECT body from the builder's clauses, with its order and limit; the pending subject is not part of it |
| InsertBuilder.New | chela_query/src/builder.rs:330-341 | INTO set, no table, no columns, and a VALUES body of one empty row |
| InsertBuilder.Columns | chela_query/src/builder.rs:343-348 | the names are appended in order; table and source unchanged |
| InsertBuilder.Column | chela_query/src/builder.rs:349-352 | appends one name; table and source unchanged |
| InsertBuilder.Into | chela_query/src/builder.rs:354-357 | sets only the table name |
| InsertBuilder.StringLiterals | chela_query/src/builder.rs:360-363 | each value becomes a single-quoted string literal, in order |
| InsertBuilder.SetValues | chela_query/src/builder.rs:359-366 | the body becomes exactly one row of those literals; order, limit, table and columns unchanged |
| InsertBuilder.Build | chela_query/src/builder.rs:368-375 | INTO is always set; table, columns and source copied |
| Shorthand.CreateTable | chela_query/src/builder.rs:28-30 | a builder with the single-part name, the given columns and no constraints |
| Shorthand.SelectTable | chela_query/src/builder.rs:32-34 | "*" from the one named table, with every other clause empty |
| Shorthand.InsertInto | chela_query/src/builder.rs:378-380 | a fresh insert builder aimed at the table |
| Shorthand.Varchar | chela_query/src/builder.rs:144-146 | VARCHAR with the length, printing "VARCHAR" or "VARCHAR(n)" |
| Shorthand.Int | chela_query/src/builder.rs:147-149 | INT with the width, printing "INT" or "INT(n)" |
| Shorthand.Serial | chela_query/src/builder.rs:151-153 | the custom type SERIAL, printing "SERIAL" |
| Shorthand.NotNull | chela_query/src/builder.rs:195-197 | one unnamed option, printing "NOT NULL" |
| Shorthand.PrimaryKeyUnique | chela_query/src/builder.rs:198-200 | one unnamed option, printing "PRIMARY KEY" |
| Shorthand.NumberLiteralsText | chela_query/src/builder.rs:252-264 | the literals `in_list` builds print as the ids' decimal texts |
| Shorthand.InListQueryText | chela_query/src/builder.rs:252-269 | `select_table(t).where_(c).in_list(ids)` prints "SELECT * FROM t WHERE c IN (ids)", with the ids comma-separated in decimal |
| Shorthand.OrderLimitQueryText | chela_query/src/builder.rs:276-284 | `select_table(t).order_by(c).limit(n)` prints "SELECT * FROM t ORDER BY c LIMIT n" |
| Shorthand.ColumnAddsText | chela_query/src/builder.rs:78-90 | adding a column to a non-empty table inserts ", column" right after the last column's text; the rest is kept |
| Shorthand.ForeignKeyAddsText | chela_query/src/builder.rs:50-72 | the first foreign key lands between the last column and ")" |
| Shorthand.StringLiteralsText | chela_query/src/builder.rs:359-366 | the literals `values` builds print as the values between single quotes, verbatim |
| Shorthand.InsertText | chela_query/src/builder.rs:359-375 | `insert_into(t).columns(cs).values(vs)` prints "INSERT INTO t (cs) VALUES ('v1', ...)" |
| QueryTests.ArticleTest | chela_query/src/lib.rs:27-44 | the foreign-key chain builds the hand-written statement, and that statement prints the text the test expects |
| QueryTests.AlphabetTest | chela_query/src/lib.rs:96-109 | the two-column chain builds the hand-written statement, and that statement prints the text the test expects |
| QueryTests.OrdersInListTest | chela_query/src/lib.rs:166-177 | the in-list chain builds the hand-written query, and that query prints "SELECT * FROM orders WHERE user_id IN (1, 2, 3, 4)" |
| QueryTests.FirstUserTest | chela_query/src/lib.rs:178-187 | the first-user query prints "SELECT * FROM users ORDER BY id LIMIT 1" |
| QueryTests.FirstUserChain | chela_query/src/lib.rs:242-249 | the order/limit chain builds the first-user query |
| QueryTests.InsertTest | chela_query/src/lib.rs:146-164 | the test's statement prints "INSERT INTO test () VALUES ('test')", which is not the text the test expects |
| Chela.CreateTable | chela/src/lib.rs:54-65 | the statement keeps the entity's table name and its columns, same count, same order |
| Chela.StructNameIgnored | chela/src/lib.rs:54-65 | the struct name has no influence on the statement |
| Chela.NewSchema | chela/src/lib.rs:102-112 | one entity per value, converted in order |
| Chela.NewApp | chela/src/lib.rs:125-142 | the schema of the converted values, and exactly one CREATE TABLE migration per entity, in entity order |
| Chela.NewMigrations | chela/src/lib.rs:78-81 | holds exactly the given statements, in order |
| Chela.AddMigration | chela/src/lib.rs:83-85 | the pushed list is the old one with the statement at the end |
| Chela.RenderColumn | chela/src/display.rs:54-58 | the column name, one space, the type text verbatim |
| Chela.RenderCreate | chela/src/display.rs:43-52 | starts with "CREATE TABLE t (" and ends with ")" |
| Chela.RenderStatement | chela/src/display.rs:61-67 | the CREATE TABLE text followed by exactly one ";" |
| Chela.EmptyMigrations | chela/src/display.rs:70-77 | no migrations print as the empty text |
| Chela.MigrationsAppend | chela/src/display.rs:70-77 | the text of two migration lists back to back is the two texts back to back |
| Chela.MigrationsAppendOne | chela/src/display.rs:61-77 | one more statement appends its ";"-terminated text |
| Chela.EntityMigrationText | chela/src/display.rs:43-77 | a single entity's migration prints "CREATE TABLE t (name type, ...);" |
| Derive.DefaultTableName | chela_derive/src/lib.rs:64-65 | the struct name lower-cased, letter by letter, with "s" appended |
| Derive.TableToStructName | chela_derive/src/lib.rs:337-341 | the first letter upper-cased, then the letters between the first and the last; the last is dropped |
| Derive.UsersToUser | chela_derive/src/lib.rs:347-352 | "users" gives "User" |
| Derive.StructNameRoundTrip | chela_derive/src/lib.rs:337-341 | for a capitalised ASCII struct name, converting its default table name back gives the struct name |
| Derive.IsVec | chela_derive/src/lib.rs:161-167 | a type is a vector exactly when it is a path whose first segment is `Vec` |
| Derive.AutoIncrement | chela_derive/src/lib.rs:176-208 | the last `auto_increment` value given wins; none means false |
| Derive.FieldColumn | chela_derive/src/lib.rs:209-218 | an auto-increment field is the serial key whatever its type; any other field is a NOT NULL column unless it is a vector, which gives no column |
| Derive.DeriveColumns | chela_derive/src/lib.rs:33-59 | at most one column per field, and one for each when every field yields one, in field order |
| Derive.OneFieldColumns | chela_derive/src/lib.rs:169-219 | one field yields its column if it has one, else none |
| Derive.DeriveColumnsAppend | chela_derive/src/lib.rs:33-59 | the columns of two runs of fields are the first run's followed by the second's |
| Derive.ColumnOf | chela_derive/src/lib.rs:268-288 | the serial key is SERIAL PRIMARY KEY; a plain field evaluates exactly when its type name is supported |
| Derive.SerialKeyText | chela_derive/src/lib.rs:268-272 | the serial key prints "name SERIAL PRIMARY KEY" |
| Derive.NotNullColumnText | chela_derive/src/lib.rs:284-288 | a supported field prints "name SQL-type NOT NULL" |
| Derive.EvalColumns | chela_derive/src/lib.rs:284-296 | the columns evaluate exactly when every type name is supported, and then in order |
| Derive.ApplyArgs | chela_derive/src/lib.rs:235-257 | each argument overwrites the remembered foreign key or table name; the last one given wins, the others persist, and a table name in force was either given here or remembered from before |
| Derive.ParseAttribute | chela_derive/src/lib.rs:235-264 | aborts exactly when the table name in force after the attribute's arguments cannot be converted; otherwise a relation is recorded exactly when a table name is known, named by `table_to_struct_name` and carrying the current foreign key |
| Derive.OverwrittenTableName | chela_derive/src/lib.rs:246-260 | a table name overwritten later in the same attribute is never converted, so it cannot abort the attribute |
| Derive.ShortTableNameAborts | chela_derive/src/lib.rs:337-341 | a one-letter table name makes the derive abort |
| Derive.ParseHasMany | chela_derive/src/lib.rs:221-266 | a field's attributes add at most one relation each and never remove one; when every table_name argument converts, no attribute aborts |
| Derive.HasManyOf | chela_derive/src/lib.rs:28-34 | every recorded relation's struct name is its table name converted; no attribute aborts when every table_name argument converts |
| Derive.TableNamePersists | chela_derive/src/lib.rs:30-34 | a later field naming only a foreign key records a second relation on the table an earlier field named |
| Derive.NoTableNoRelation | chela_derive/src/lib.rs:258-264 | fields whose attributes never name a table record no relation |
| Derive.ToEntity | chela_derive/src/lib.rs:309-323 | the entity exists exactly when the relations parse, every relation has a foreign key and all columns evaluate; it has the default table name, the struct name, the relations, and as columns exactly the evaluated plans, one per field when every field has a plan |
| Derive.DerivedEntityRenderable | chela_derive/src/lib.rs:268-288 | a derived entity's CREATE TABLE always renders |
| Derive.MissingForeignKeyFails | chela_derive/src/lib.rs:298-301 | a relation recorded before any foreign key is given (lib.rs:258-263 passes `None`) yields no entity, since the expansion writes `foreign_key: .to_string()` |
| Derive.PreloadQuery | chela_derive/src/lib.rs:326-332 | "*" from the relation's table, with its foreign key as the pending subject and no selection |
| Derive.PreloadWithoutInList | chela_derive/src/lib.rs:326-332 | a preload used without `in_list` has no WHERE clause |
| Derive.BuildPreloads | chela_derive/src/lib.rs:324-335 | a query for every relation's table and for no other, the last relation deciding |
| Derive.LastRelationWins | chela_derive/src/lib.rs:333 | a table's query comes from the last relation on that table |
| Derive.UserEntity | example/src/main.rs:20-27 | `User` becomes "users" with a serial key, a VARCHAR(150) username, no orders column, and one relation to "orders" through "user_id" |
| Derive.UserColumns | example/src/main.rs:20-27 | `User`'s fields give the serial key and the username column, in that order |
| Derive.UserRelations | example/src/main.rs:25-26 | `User`'s attribute gives one relation named `Order` |
| Example.GroupBy | example/src/main.rs:151-153 | every item's key has a group, and every group is non-empty |
| Example.GroupByIsMatching | example/src/main.rs:151-153 | a key has a group exactly when some item carries it, and the group is exactly those items, in order |
| Example.ParentIds | example/src/main.rs:132-136 | one id per parent, in parent order |
| Example.Reassemble | example/src/main.rs:155-162 | one user per parent, in order, with the parent's id and name and the group under its id; every id must have a group |
| Example.ReassembleTotal | example/src/main.rs:155-162 | the same without aborting: a parent without a group gets no orders |
| Example.ReassembleAgrees | example/src/main.rs:155-162 | where the aborting reassembly is defined, the total one agrees with it |
| Example.LoadAsWritten | example/src/main.rs:132-162 | as written: each user gets the orders whose own id equals the user's id, and every user id must be some order's id |
| Example.LoadIntended | example/src/main.rs:132-162 | as intended: each user gets exactly the orders whose user id is its id, in fetched order |
| Example.IntendedOrdersBelong | example/src/main.rs:151-158 | every order the intended load hands a user was fetched and belongs to that user |
| Example.PreloadHasManyTest | example/src/main.rs:231-267 | user 1 "origin" with order {1, 1, 200.0} is reassembled with that order, by either grouping |
| Example.LoadMisassigns | example/src/main.rs:151-153 | with two users, the written load hands user 1 the order of user 2 |
| Example.LoadAbortsWithoutOrders | example/src/main.rs:158 | a user without orders has no group, so the written load aborts; the intended load gives it no orders |
| Example.InsertColumns | example/src/main.rs:97-108 | only names of columns that are not primary keys, and every such column's name |
| Example.OneInsertColumn | example/src/main.rs:97-108 | a single column is inserted exactly when it is not the primary key |
| Example.InsertColumnsAppend | example/src/main.rs:97-108 | the filter keeps column order |
| Example.UserInsertColumns | example/src/main.rs:97-108 | of a serial key and a NOT NULL column, only the latter is inserted |
| Example.CreateUserText | example/src/main.rs:117-122 | creating a user prints "INSERT INTO users (username) VALUES ('name')" |
| Example.LoadQuery | example/src/main.rs:138-142 | the stored query of the table, with its pending subject matched against the ids; projection, GROUP BY, HAVING, sort_by, ORDER BY and LIMIT carry over unchanged; the table must have a preload |
| Example.PreloadLoadText | example/src/main.rs:138-142 | for any relations with foreign keys, loading a table's preload with ids renders "SELECT * FROM t WHERE fk IN (ids)" |
| Example.UserOrdersPreload | example/src/main.rs:38-41 | the orders preload of `User` is `select_table("orders").where_("user_id")` |
| Example.UserOrdersQueryText | example/src/main.rs:138-142 | the orders query of `load` prints "SELECT * FROM orders WHERE user_id IN (ids)" |

## Left out

- Database I/O and async code:
  - the queries in `load`;
  - `MigrationRunner::run` with `join_all`;
  - the `From<Row>` decoders.

  Fetched rows are input sequences instead.
- The repository registry built on `Any`, `TypeId` and `Rc` (`add_repo`, `get_repo`). It is runtime reflection.
- Token parsing and code generation in the derive, including the `abort_call_site!` errors for malformed attributes. A field is modelled by the values its attributes carry.
- Derive.FieldType: the type text is taken as given. The spacing `stringify!` puts into a token stream such as `DateTime < chrono :: Local >` is not modelled, so such a type is assumed to reach `DataType::from` in its written form.
- Derive.DefaultTableName: it lower-cases ASCII letters only. Rust's `to_lowercase` also maps non-ASCII letters.
- Derive.TableToStructName: it requires the first and last characters to be single-byte, where Rust panics on a slice off a character boundary. It upper-cases ASCII only.
- CreateDisplay.RenderObjectName: the `Display` of `ObjectName` and `Ident` is not part of the snapshot. It is taken to be the parts joined by '.', the convention of the SQL-parser crate those types come from.
- CreateDisplay.EscapeSingleQuote: `escape_single_quote_string` is not part of the snapshot. It is taken to double each single quote.
- Example.IsPrimary: `Column::is_primary` is not part of the snapshot. It is taken to hold when some option is PRIMARY KEY.
- Chela.AddMigration: the receiver is moved into the call and dropped, so a caller never sees the pushed statement. The function gives the value the dropped receiver would hold.
- The `Order` struct carries a `belongs_to` attribute the derive does not register. No behaviour is attached to it.
- `f64` prices are kept as raw bits. `Float`, `Real` and `Double` are only type tags.
- chela_query/src/statement.rs (a bare enum) is not used. The stale `Display` impls at the top of chela_query/src/display.rs are not modelled either: they refer to types that no longer exist.
- The `println!` calls in the example and `main` itself.

## Findings

| source | as written | input that shows it | evidently intended | confidence | as-written member | corrected member |
|---|---|---|---|---|---|---|
| example/src/main.rs:151-158 | fetched orders are grouped by the order's own `id`, and each user's group is looked up by the user's id | users 1 and 2 with orders {id 1, user 2} and {id 2, user 1}: user 1 receives the order of user 2; a user with no orders makes the lookup abort | group by `user_id`, and give a user without orders an empty list | not executed | Example.LoadAsWritten (Example.LoadMisassigns, Example.LoadAbortsWithoutOrders) | Example.LoadIntended (Example.IntendedOrdersBelong) |
| chela_query/src/builder.rs:92-99 | `columns` pushes each entry onto a clone of the builder that is then dropped | `create_table("t", []).columns([("id", int(None), [])])` has no columns | append the entries in order | not executed | CreateBuilder.Columns (CreateBuilder.ColumnsDropsTheBatch) | CreateBuilder.ColumnsAppending |
