/**
 * The decisions the `ToEntity` derive macro (chela_derive/src/lib.rs) takes
 * for a struct: its table name, one column per field under the column policy,
 * the has-many relations its attributes declare, and the preload queries of
 * the generated repository.  Token parsing and code generation are not
 * modelled; a field is the abstract record the decisions read.
 */
module Derive {
  import opened Wrappers
  import opened Separated
  import A = Ast
  import QB = QueryBuilder
  import opened QueryDisplay
  import opened CreateDisplay
  import opened Shorthand

  /**
   * A field's type: a path type with its first segment's identifier and its
   * text, or any other kind of type, with its text.  The text is what the
   * generated code hands to `DataType::from`.
   */
  datatype FieldType = PathType(firstSegment: string, text: string) | OtherType(text: string)

  /** One `name = "value"` argument of a `#[has_many(...)]` attribute. */
  datatype HasManyArg = ForeignKeyArg(foreignKey: string) | TableNameArg(tableName: string)

  /**
   * A struct field: its name and type, the `auto_increment = b` values of its
   * `#[primary_key(...)]` attributes in order, and the argument lists of its
   * `#[has_many(...)]` attributes in order.
   */
  datatype Field = Field(name: string, ty: FieldType, autoIncrementFlags: seq<bool>, hasMany: seq<seq<HasManyArg>>)

  /** A has-many relation of the entity; the foreign key may never have been given. */
  datatype HasMany = HasMany(foreignKey: Option<string>, structName: string, tableName: string)

  /** What the generated code builds for one field. */
  datatype ColumnPlan =
    | SerialKey(name: string)                    // serial() with primary_key_unique()
    | NotNullColumn(name: string, typeText: string) // DataType::from(type text) with not_null()

  /** The entity the generated `to_entity` returns. */
  datatype DerivedEntity = DerivedEntity(tableName: string, structName: string, hasMany: seq<HasMany>,
                                         columns: seq<A.ColumnDef>)

  predicate IsAscii(c: char)
  {
    c < 128 as char
  }

  function ToLowerAscii(c: char): (r: char)
    ensures 'A' <= c <= 'Z' ==> 'a' <= r <= 'z' && r as int - 'a' as int == c as int - 'A' as int
    ensures !('A' <= c <= 'Z') ==> r == c
  {
    if 'A' <= c <= 'Z' then (c as int - 'A' as int + 'a' as int) as char else c
  }

  function ToUpperAscii(c: char): (r: char)
    ensures 'a' <= c <= 'z' ==> 'A' <= r <= 'Z' && r as int - 'A' as int == c as int - 'a' as int
    ensures !('a' <= c <= 'z') ==> r == c
  {
    if 'a' <= c <= 'z' then (c as int - 'a' as int + 'A' as int) as char else c
  }

  /** Lower-casing, letter by letter (ASCII letters only). */
  function LowerAscii(s: string): (r: string)
    ensures |r| == |s|
    ensures forall i :: 0 <= i < |s| ==> r[i] == ToLowerAscii(s[i])
  {
    seq(|s|, i requires 0 <= i < |s| => ToLowerAscii(s[i]))
  }

  /**
   * The table name every derived entity gets: the struct name lower-cased
   * with "s" appended.
   */
  function DefaultTableName(structName: string): (r: string)
    ensures |r| == |structName| + 1 && r[|r| - 1] == 's'
    ensures forall i :: 0 <= i < |structName| ==> r[i] == ToLowerAscii(structName[i])
  {
    LowerAscii(structName) + "s"
  }

  /**
   * A table name `table_to_struct_name` can take apart without panicking: at
   * least two characters, the first and last of them single-byte, so that the
   * byte slices `[0..1]` and `[1..len-1]` fall on character boundaries.
   */
  predicate ValidTableName(t: string)
  {
    |t| >= 2 && IsAscii(t[0]) && IsAscii(t[|t| - 1])
  }

  /**
   * `table_to_struct_name`: the first character upper-cased, then the
   * characters between the first and the last; the last one is dropped.
   */
  function TableToStructName(t: string): (r: string)
    requires ValidTableName(t)
    ensures |r| == |t| - 1
    ensures r[0] == ToUpperAscii(t[0])
    ensures forall i :: 1 <= i < |r| ==> r[i] == t[i]
  {
    [ToUpperAscii(t[0])] + t[1..|t| - 1]
  }

  /** The name of the crate's own example: "users" names the struct "User". */
  lemma UsersToUser()
    ensures TableToStructName("users") == "User"
  {
  }

  /** A struct name written as a capital followed by lower-case ASCII. */
  predicate CapitalisedAscii(n: string)
  {
    && |n| >= 1 && 'A' <= n[0] <= 'Z'
    && forall i :: 1 <= i < |n| ==> IsAscii(n[i]) && !('A' <= n[i] <= 'Z')
  }

  /**
   * For a capitalised ASCII struct name, taking the struct name back from the
   * default table name gives the struct name: the two conversions invert
   * each other.
   */
  lemma StructNameRoundTrip(n: string)
    requires CapitalisedAscii(n)
    ensures ValidTableName(DefaultTableName(n))
    ensures TableToStructName(DefaultTableName(n)) == n
  {
    var t := DefaultTableName(n);
    var r := TableToStructName(t);
    assert r[0] == n[0];
    forall i | 1 <= i < |n|
      ensures r[i] == n[i]
    {
      assert t[i] == ToLowerAscii(n[i]);
    }
  }

  /**
   * `parse_type_is_vec`: a type counts as a vector exactly when it is a path
   * whose first segment is `Vec`.
   */
  function IsVec(t: FieldType): (r: bool)
    ensures r <==> t.PathType? && t.firstSegment == "Vec"
  {
    match t
    case PathType(first, _) => first == "Vec"
    case OtherType(_) => false
  }

  /**
   * The field's `auto_increment` setting: the last value any of its
   * `#[primary_key(...)]` attributes assigns, false when none does.
   */
  function AutoIncrement(f: Field): (r: bool)
    ensures |f.autoIncrementFlags| == 0 ==> !r
    ensures |f.autoIncrementFlags| > 0 ==> r == f.autoIncrementFlags[|f.autoIncrementFlags| - 1]
  {
    if |f.autoIncrementFlags| == 0 then false else f.autoIncrementFlags[|f.autoIncrementFlags| - 1]
  }

  /**
   * `parse_primary_key`'s column policy: an auto-increment field becomes the
   * serial primary key whatever its type; any other field becomes a NOT NULL
   * column of its type unless its type is a vector, in which case it yields
   * no column.
   */
  function FieldColumn(f: Field): (r: Option<ColumnPlan>)
    ensures r.Some? <==> AutoIncrement(f) || !IsVec(f.ty)
    ensures AutoIncrement(f) ==> r == Some(SerialKey(f.name))
    ensures !AutoIncrement(f) && !IsVec(f.ty) ==> r == Some(NotNullColumn(f.name, f.ty.text))
  {
    if AutoIncrement(f) then Some(SerialKey(f.name))
    else if !IsVec(f.ty) then Some(NotNullColumn(f.name, f.ty.text))
    else None
  }

  /** The column plans of the fields, in declaration order. */
  function DeriveColumns(fields: seq<Field>): (r: seq<ColumnPlan>)
    ensures |r| <= |fields|
    ensures (forall i :: 0 <= i < |fields| ==> FieldColumn(fields[i]).Some?) ==>
              |r| == |fields| && forall i :: 0 <= i < |fields| ==> r[i] == FieldColumn(fields[i]).value
    decreases |fields|
  {
    if |fields| == 0 then []
    else
      var init := DeriveColumns(fields[..|fields| - 1]);
      match FieldColumn(fields[|fields| - 1])
      case None => init
      case Some(p) => init + [p]
  }

  /** One field yields at most one column: its plan if it has one. */
  lemma OneFieldColumns(f: Field)
    ensures DeriveColumns([f]) == if FieldColumn(f).Some? then [FieldColumn(f).value] else []
  {
    assert [f][..0] == [];
  }

  /**
   * The columns of two runs of fields are the columns of the first followed
   * by those of the second: columns keep the fields' declaration order.
   */
  lemma {:induction false} DeriveColumnsAppend(a: seq<Field>, b: seq<Field>)
    ensures DeriveColumns(a + b) == DeriveColumns(a) + DeriveColumns(b)
    decreases |b|
  {
    if |b| == 0 {
      assert a + b == a;
    } else {
      var b' := b[..|b| - 1];
      assert (a + b)[..|a + b| - 1] == a + b';
      assert (a + b)[|a + b| - 1] == b[|b| - 1];
      DeriveColumnsAppend(a, b');
    }
  }

  /**
   * The column definition a plan evaluates to when `to_entity` runs; `None`
   * for a type name `DataType::from` rejects (the "not supported type" panic).
   */
  function ColumnOf(p: ColumnPlan): (r: Option<A.ColumnDef>)
    ensures p.SerialKey? ==> r == Some(A.ColumnDef(p.name, A.Custom(["SERIAL"]), [A.ColumnOptionDef(None, A.Unique(true))]))
    ensures p.NotNullColumn? ==> (r.Some? <==> p.typeText in SupportedTypeNames)
    ensures r.Some? ==> r.value.name == p.name && Renderable(r.value.dataType)
  {
    match p
    case SerialKey(name) => Some(A.ColumnDef(name, Serial(), PrimaryKeyUnique()))
    case NotNullColumn(name, typeText) =>
      match DataTypeFrom(typeText)
      case None => None
      case Some(d) => Some(A.ColumnDef(name, d, NotNull()))
  }

  /** The serial key column renders as "<name> SERIAL PRIMARY KEY". */
  lemma SerialKeyText(name: string)
    ensures RenderColumnDef(ColumnOf(SerialKey(name)).value) == name + " " + "SERIAL" + " " + "PRIMARY KEY"
  {
  }

  /** A supported field renders as "<name> <SQL type> NOT NULL". */
  lemma NotNullColumnText(name: string, typeText: string)
    requires typeText in SupportedTypeNames
    ensures RenderColumnDef(ColumnOf(NotNullColumn(name, typeText)).value)
         == name + " " + RenderDataType(DataTypeFrom(typeText).value) + " " + "NOT NULL"
  {
  }

  /** Evaluates every plan in order; fails as soon as one type is unsupported. */
  function EvalColumns(plans: seq<ColumnPlan>): (r: Option<seq<A.ColumnDef>>)
    ensures r.Some? <==> forall i :: 0 <= i < |plans| ==> ColumnOf(plans[i]).Some?
    ensures r.Some? ==> |r.value| == |plans| && forall i :: 0 <= i < |plans| ==> r.value[i] == ColumnOf(plans[i]).value
    decreases |plans|
  {
    if |plans| == 0 then Some([])
    else
      match EvalColumns(plans[..|plans| - 1])
      case None => None
      case Some(init) =>
        match ColumnOf(plans[|plans| - 1])
        case None => None
        case Some(c) => Some(init + [c])
  }

  /** The has-many parser's running state: the last foreign key and table name seen, and the relations so far. */
  datatype HasManyState = HasManyState(foreignKey: Option<string>, tableName: Option<string>, found: seq<HasMany>)

  /** Every relation found so far is named after its table. */
  predicate WellNamed(found: seq<HasMany>)
  {
    forall i :: 0 <= i < |found| ==>
      ValidTableName(found[i].tableName) && found[i].structName == TableToStructName(found[i].tableName)
  }

  /** A state whose remembered table name has been converted, and whose relations are well named. */
  predicate GoodState(st: HasManyState)
  {
    (st.tableName.Some? ==> ValidTableName(st.tableName.value)) && WellNamed(st.found)
  }

  /** Every table name the arguments give can be converted. */
  predicate ArgsValid(args: seq<HasManyArg>)
  {
    forall k :: 0 <= k < |args| && args[k].TableNameArg? ==> ValidTableName(args[k].tableName)
  }

  /**
   * Every table name any has-many attribute gives can be converted: enough for
   * the parse never to abort, though not necessary, since only the name in
   * force at the end of an attribute is converted.
   */
  predicate FieldsValid(fields: seq<Field>)
  {
    forall i, j :: 0 <= i < |fields| && 0 <= j < |fields[i].hasMany| ==> ArgsValid(fields[i].hasMany[j])
  }

  /**
   * The arguments of one attribute, applied in order: each overwrites the
   * remembered foreign key or table name; earlier values persist otherwise.
   * Nothing is converted here.
   */
  function ApplyArgs(st: HasManyState, args: seq<HasManyArg>): (r: HasManyState)
    ensures r.found == st.found
    ensures (forall k :: 0 <= k < |args| ==> !args[k].TableNameArg?) ==> r.tableName == st.tableName
    ensures (forall k :: 0 <= k < |args| ==> !args[k].ForeignKeyArg?) ==> r.foreignKey == st.foreignKey
    ensures |args| > 0 && args[|args| - 1].TableNameArg? ==> r.tableName == Some(args[|args| - 1].tableName)
    ensures |args| > 0 && args[|args| - 1].ForeignKeyArg? ==> r.foreignKey == Some(args[|args| - 1].foreignKey)
    ensures r.tableName.Some? ==>
              r.tableName == st.tableName || exists k :: 0 <= k < |args| && args[k] == TableNameArg(r.tableName.value)
    decreases |args|
  {
    if |args| == 0 then st
    else
      var prev := ApplyArgs(st, args[..|args| - 1]);
      match args[|args| - 1]
      case ForeignKeyArg(fk) => prev.(foreignKey := Some(fk))
      case TableNameArg(t) => prev.(tableName := Some(t))
  }

  /**
   * One `#[has_many(...)]` attribute: after its arguments, a relation is
   * recorded exactly when some table name is known — possibly one an earlier
   * attribute or field gave — with the foreign key known at that point.
   * Converting that table name to a struct name panics unless it is valid,
   * which aborts the derive: `None`.
   */
  function ParseAttribute(st: HasManyState, args: seq<HasManyArg>): (r: Option<HasManyState>)
    ensures r.None? <==> ApplyArgs(st, args).tableName.Some? && !ValidTableName(ApplyArgs(st, args).tableName.value)
    ensures r.Some? ==> r.value.foreignKey == ApplyArgs(st, args).foreignKey
                        && r.value.tableName == ApplyArgs(st, args).tableName
    ensures r.Some? && r.value.tableName.None? ==> r.value.found == st.found
    ensures r.Some? && r.value.tableName.Some? ==>
              ValidTableName(r.value.tableName.value)
              && r.value.found == st.found + [HasMany(r.value.foreignKey, TableToStructName(r.value.tableName.value),
                                                      r.value.tableName.value)]
    ensures r.Some? && WellNamed(st.found) ==> GoodState(r.value)
  {
    var next := ApplyArgs(st, args);
    if next.tableName.None? then Some(next)
    else if !ValidTableName(next.tableName.value) then None
    else
      var t := next.tableName.value;
      Some(next.(found := next.found + [HasMany(next.foreignKey, TableToStructName(t), t)]))
  }

  /**
   * `parse_has_many` for one field: its attributes in order.  Each adds at
   * most one relation and none is removed; when every table name given can
   * be converted, it never aborts.
   */
  function ParseHasMany(st: HasManyState, attrs: seq<seq<HasManyArg>>): (r: Option<HasManyState>)
    ensures r.Some? ==> |st.found| <= |r.value.found| <= |st.found| + |attrs| && r.value.found[..|st.found|] == st.found
    ensures r.Some? && GoodState(st) ==> GoodState(r.value)
    ensures GoodState(st) && (forall j :: 0 <= j < |attrs| ==> ArgsValid(attrs[j])) ==> r.Some?
    decreases |attrs|
  {
    if |attrs| == 0 then Some(st)
    else
      match ParseHasMany(st, attrs[..|attrs| - 1])
      case None => None
      case Some(prev) => ParseAttribute(prev, attrs[|attrs| - 1])
  }

  /** The parser state after every field, in declaration order; `None` once the derive has aborted. */
  function HasManyAfter(fields: seq<Field>): (r: Option<HasManyState>)
    ensures r.Some? ==> GoodState(r.value)
    ensures FieldsValid(fields) ==> r.Some?
    decreases |fields|
  {
    if |fields| == 0 then Some(HasManyState(None, None, []))
    else
      match HasManyAfter(fields[..|fields| - 1])
      case None => None
      case Some(st) => ParseHasMany(st, fields[|fields| - 1].hasMany)
  }

  /** The has-many relations the derive records for the struct; `None` when it aborts. */
  function HasManyOf(fields: seq<Field>): (r: Option<seq<HasMany>>)
    ensures r.Some? ==> WellNamed(r.value)
    ensures FieldsValid(fields) ==> r.Some?
  {
    match HasManyAfter(fields)
    case None => None
    case Some(st) => Some(st.found)
  }

  /** Applying two runs of arguments is applying the first, then the second. */
  lemma {:induction false} ApplyArgsAppend(st: HasManyState, a: seq<HasManyArg>, b: seq<HasManyArg>)
    ensures ApplyArgs(st, a + b) == ApplyArgs(ApplyArgs(st, a), b)
    decreases |b|
  {
    if |b| == 0 {
      assert a + b == a;
    } else {
      assert (a + b)[..|a + b| - 1] == a + b[..|b| - 1];
      assert (a + b)[|a + b| - 1] == b[|b| - 1];
      ApplyArgsAppend(st, a, b[..|b| - 1]);
    }
  }

  /**
   * The table name remembered before an attribute does not matter once the
   * attribute names a table itself.
   */
  lemma {:induction false} LaterTableNameWins(st1: HasManyState, st2: HasManyState, args: seq<HasManyArg>)
    requires st1.foreignKey == st2.foreignKey && st1.found == st2.found
    ensures ApplyArgs(st1, args).foreignKey == ApplyArgs(st2, args).foreignKey
    ensures (exists k :: 0 <= k < |args| && args[k].TableNameArg?) ==> ApplyArgs(st1, args) == ApplyArgs(st2, args)
    decreases |args|
  {
    if |args| > 0 {
      var init := args[..|args| - 1];
      LaterTableNameWins(st1, st2, init);
      if !args[|args| - 1].TableNameArg? && exists k :: 0 <= k < |args| && args[k].TableNameArg? {
        var k :| 0 <= k < |args| && args[k].TableNameArg?;
        assert init[k] == args[k];
      }
    }
  }

  /**
   * A table name overwritten later in the same attribute is never converted:
   * the attribute parses as if it had not been given, whether or not it is a
   * valid table name.
   */
  lemma OverwrittenTableName(st: HasManyState, t: string, args: seq<HasManyArg>)
    requires exists k :: 0 <= k < |args| && args[k].TableNameArg?
    ensures ParseAttribute(st, [TableNameArg(t)] + args) == ParseAttribute(st, args)
  {
    ApplyArgsAppend(st, [TableNameArg(t)], args);
    assert [TableNameArg(t)][..0] == [];
    assert ApplyArgs(st, [TableNameArg(t)]) == st.(tableName := Some(t));
    LaterTableNameWins(st.(tableName := Some(t)), st, args);
  }

  /** A one-letter table name cannot be converted: the derive aborts. */
  lemma ShortTableNameAborts(ty: FieldType)
    ensures HasManyOf([Field("orders", ty, [], [[TableNameArg("x")]])]).None?
  {
    var f := Field("orders", ty, [], [[TableNameArg("x")]]);
    HasManyAfterOne(f);
    OneAttribute(HasManyState(None, None, []), [TableNameArg("x")]);
    assert [TableNameArg("x")][..0] == [];
  }

  /**
   * The table and foreign key persist across fields: a later field whose
   * attribute names only a foreign key records a second relation on the
   * table an earlier field named.
   */
  lemma TableNamePersists(fk1: string, table: string, fk2: string, ty1: FieldType, ty2: FieldType)
    requires ValidTableName(table)
    ensures HasManyOf([Field("a", ty1, [], [[ForeignKeyArg(fk1), TableNameArg(table)]]),
                       Field("b", ty2, [], [[ForeignKeyArg(fk2)]])])
         == Some([HasMany(Some(fk1), TableToStructName(table), table), HasMany(Some(fk2), TableToStructName(table), table)])
  {
    var f1 := Field("a", ty1, [], [[ForeignKeyArg(fk1), TableNameArg(table)]]);
    var f2 := Field("b", ty2, [], [[ForeignKeyArg(fk2)]]);
    var st0 := HasManyState(None, None, []);
    var args1 := [ForeignKeyArg(fk1), TableNameArg(table)];
    var st1 := HasManyState(Some(fk1), Some(table), [HasMany(Some(fk1), TableToStructName(table), table)]);
    HasManyAfterOne(f1);
    OneAttribute(st0, args1);
    TwoArgs(st0, fk1, table);
    assert HasManyAfter([f1]) == Some(st1);
    HasManyAfterTwo(f1, f2);
    OneAttribute(st1, [ForeignKeyArg(fk2)]);
    OneArg(st1, fk2);
    var st2 := st1.(foreignKey := Some(fk2));
    assert ParseAttribute(st1, [ForeignKeyArg(fk2)])
        == Some(st2.(found := st1.found + [HasMany(Some(fk2), TableToStructName(table), table)]));
    assert HasManyAfter([f1, f2]) == ParseHasMany(st1, [[ForeignKeyArg(fk2)]]);
    var h1 := HasMany(Some(fk1), TableToStructName(table), table);
    var h2 := HasMany(Some(fk2), TableToStructName(table), table);
    assert HasManyAfter([f1, f2]).value.found == [h1] + [h2] == [h1, h2];
  }

  /** Helpers for the small examples: the recursion unfolded one step at a time. */
  lemma HasManyAfterOne(f: Field)
    ensures HasManyAfter([f]) == ParseHasMany(HasManyState(None, None, []), f.hasMany)
  {
    assert [f][..0] == [];
  }

  lemma HasManyAfterTwo(f1: Field, f2: Field)
    ensures HasManyAfter([f1]).Some? ==> HasManyAfter([f1, f2]) == ParseHasMany(HasManyAfter([f1]).value, f2.hasMany)
  {
    assert [f1, f2][..1] == [f1];
  }

  lemma OneAttribute(st: HasManyState, args: seq<HasManyArg>)
    ensures ParseHasMany(st, [args]) == ParseAttribute(st, args)
  {
    assert [args][..0] == [];
  }

  lemma OneArg(st: HasManyState, fk: string)
    ensures ApplyArgs(st, [ForeignKeyArg(fk)]) == st.(foreignKey := Some(fk))
  {
    assert [ForeignKeyArg(fk)][..0] == [];
  }

  lemma TwoArgs(st: HasManyState, fk: string, table: string)
    ensures ApplyArgs(st, [ForeignKeyArg(fk), TableNameArg(table)])
         == st.(foreignKey := Some(fk), tableName := Some(table))
  {
    var args := [ForeignKeyArg(fk), TableNameArg(table)];
    assert args[..1] == [ForeignKeyArg(fk)];
    OneArg(st, fk);
  }

  /**
   * A field with no has-many attribute leaves the relations unchanged, and a
   * relation is never recorded before any table name was given.
   */
  lemma NoTableNoRelation(fields: seq<Field>)
    requires forall i, j, k :: 0 <= i < |fields| && 0 <= j < |fields[i].hasMany| && 0 <= k < |fields[i].hasMany[j]|
               ==> !fields[i].hasMany[j][k].TableNameArg?
    ensures HasManyOf(fields) == Some([])
  {
    NoTableState(fields);
  }

  lemma {:induction false} NoTableState(fields: seq<Field>)
    requires forall i, j, k :: 0 <= i < |fields| && 0 <= j < |fields[i].hasMany| && 0 <= k < |fields[i].hasMany[j]|
               ==> !fields[i].hasMany[j][k].TableNameArg?
    ensures HasManyAfter(fields).Some?
    ensures HasManyAfter(fields).value.tableName.None? && HasManyAfter(fields).value.found == []
    decreases |fields|
  {
    if |fields| > 0 {
      var init := fields[..|fields| - 1];
      NoTableState(init);
      NoTableAttrs(HasManyAfter(init).value, fields[|fields| - 1].hasMany);
    }
  }

  lemma {:induction false} NoTableAttrs(st: HasManyState, attrs: seq<seq<HasManyArg>>)
    requires st.tableName.None? && st.found == []
    requires forall j, k :: 0 <= j < |attrs| && 0 <= k < |attrs[j]| ==> !attrs[j][k].TableNameArg?
    ensures ParseHasMany(st, attrs).Some?
    ensures ParseHasMany(st, attrs).value.tableName.None? && ParseHasMany(st, attrs).value.found == []
    decreases |attrs|
  {
    if |attrs| > 0 {
      NoTableAttrs(st, attrs[..|attrs| - 1]);
    }
  }

  /**
   * The generated `to_entity`: the default table name, the struct name, the
   * has-many relations and the evaluated columns.  `None` when the attributes
   * abort, when a field's type name is one `DataType::from` rejects, or when
   * a relation was recorded before any foreign key was given: `build_has_many`
   * then writes `foreign_key: .to_string()`, which does not compile.
   */
  function ToEntity(structName: string, fields: seq<Field>): (r: Option<DerivedEntity>)
    ensures r.Some? <==> HasManyOf(fields).Some? && KeysGiven(HasManyOf(fields).value)
                         && EvalColumns(DeriveColumns(fields)).Some?
    ensures r.Some? ==> r.value.tableName == DefaultTableName(structName) && r.value.structName == structName
    ensures r.Some? ==> r.value.hasMany == HasManyOf(fields).value && WellNamed(r.value.hasMany)
    ensures r.Some? ==> KeysGiven(r.value.hasMany)
    ensures r.Some? ==> r.value.columns == EvalColumns(DeriveColumns(fields)).value
    ensures r.Some? ==> |r.value.columns| == |DeriveColumns(fields)|
                        && forall i :: 0 <= i < |r.value.columns| ==>
                             r.value.columns[i] == ColumnOf(DeriveColumns(fields)[i]).value
                             && Renderable(r.value.columns[i].dataType)
    ensures r.Some? && (forall i :: 0 <= i < |fields| ==> FieldColumn(fields[i]).Some?) ==>
              |r.value.columns| == |fields|
              && forall i :: 0 <= i < |fields| ==> r.value.columns[i] == ColumnOf(FieldColumn(fields[i]).value).value
    ensures (&& FieldsValid(fields)
             && KeysGiven(HasManyOf(fields).value)
             && forall i :: 0 <= i < |DeriveColumns(fields)| ==> ColumnOf(DeriveColumns(fields)[i]).Some?)
              ==> r.Some?
  {
    match HasManyOf(fields)
    case None => None
    case Some(hs) =>
      if !KeysGiven(hs) then None
      else match EvalColumns(DeriveColumns(fields))
      case None => None
      case Some(cols) =>
        EvaluatedColumns(fields, cols);
        Some(DerivedEntity(DefaultTableName(structName), structName, hs, cols))
  }

  /** The evaluated columns of a field list, plan by plan and, when every field has a plan, field by field. */
  lemma EvaluatedColumns(fields: seq<Field>, cols: seq<A.ColumnDef>)
    requires EvalColumns(DeriveColumns(fields)) == Some(cols)
    ensures |cols| == |DeriveColumns(fields)|
            && forall i :: 0 <= i < |cols| ==> cols[i] == ColumnOf(DeriveColumns(fields)[i]).value && Renderable(cols[i].dataType)
    ensures (forall i :: 0 <= i < |fields| ==> FieldColumn(fields[i]).Some?) ==>
              |cols| == |fields| && forall i :: 0 <= i < |fields| ==> cols[i] == ColumnOf(FieldColumn(fields[i]).value).value
  {
    var plans := DeriveColumns(fields);
    forall i | 0 <= i < |cols|
      ensures cols[i] == ColumnOf(plans[i]).value && Renderable(cols[i].dataType)
    {
      assert ColumnOf(plans[i]).Some?;
    }
  }

  /**
   * A table name given before any foreign key records a relation without a
   * key, so no entity is derived.
   */
  lemma MissingForeignKeyFails(structName: string, ty: FieldType)
    ensures HasManyOf([Field("orders", ty, [], [[TableNameArg("orders")]])])
         == Some([HasMany(None, "Order", "orders")])
    ensures ToEntity(structName, [Field("orders", ty, [], [[TableNameArg("orders")]])]).None?
  {
    var f := Field("orders", ty, [], [[TableNameArg("orders")]]);
    assert ValidTableName("orders");
    assert TableToStructName("orders") == "Order";
    HasManyAfterOne(f);
    OneAttribute(HasManyState(None, None, []), [TableNameArg("orders")]);
    assert [TableNameArg("orders")][..0] == [];
    assert HasManyOf([f]).value[0].foreignKey.None?;
  }

  /** A derived entity always makes a CREATE TABLE statement the renderer can write. */
  lemma DerivedEntityRenderable(e: DerivedEntity, structName: string, fields: seq<Field>)
    requires ToEntity(structName, fields) == Some(e)
    ensures RenderableCreate(A.CreateStmt([e.tableName], e.columns, []))
  {
  }

  /**
   * The preload query for one relation: every column of the relation's
   * table with the foreign key as the pending WHERE subject.  The foreign key
   * must have been given (the generated code does not compile otherwise).
   */
  function PreloadQuery(h: HasMany): (r: QB.Builder)
    requires h.foreignKey.Some?
    ensures r.from == [h.tableName] && r.projection == [A.Wildcard]
    ensures r.whereExpr == A.Identifier(h.foreignKey.value) && r.selection.None?
    ensures r.orderBy.None? && r.limit.None? && r.groupBy.None? && r.having.None?
  {
    QB.Where(SelectTable(h.tableName), h.foreignKey.value)
  }

  /**
   * A preload query used as is has no WHERE clause: `where_` only records the
   * subject, and the clause appears once `in_list` is applied.
   */
  lemma PreloadWithoutInList(h: HasMany)
    requires h.foreignKey.Some?
    ensures RenderQuery(QB.Build(PreloadQuery(h))) == "SELECT * FROM " + h.tableName
  {
    var sel := A.Select([A.Wildcard], [h.tableName], None, None, [], None);
    assert QB.Build(PreloadQuery(h)) == A.QueryStmt(A.SelectBody(sel), None, None);
    assert CommaSeparated(RenderSelectItems([A.Wildcard])) == "*";
  }

  predicate KeysGiven(hs: seq<HasMany>)
  {
    forall i :: 0 <= i < |hs| ==> hs[i].foreignKey.Some?
  }

  /**
   * `build_preloads`: the (table name, query) pairs collected into a map.
   * Later pairs overwrite earlier ones with the same table name.
   */
  function BuildPreloads(hs: seq<HasMany>): (r: map<string, QB.Builder>)
    requires KeysGiven(hs)
    ensures forall i :: 0 <= i < |hs| ==> hs[i].tableName in r
    ensures forall t :: t in r ==> exists i :: 0 <= i < |hs| && hs[i].tableName == t
    ensures |hs| > 0 ==> r[hs[|hs| - 1].tableName] == PreloadQuery(hs[|hs| - 1])
    decreases |hs|
  {
    if |hs| == 0 then map[]
    else
      var last := hs[|hs| - 1];
      BuildPreloads(hs[..|hs| - 1])[last.tableName := PreloadQuery(last)]
  }

  /** The last relation on a table decides that table's preload query. */
  lemma {:induction false} LastRelationWins(hs: seq<HasMany>, i: int)
    requires KeysGiven(hs) && 0 <= i < |hs|
    requires forall j :: i < j < |hs| ==> hs[j].tableName != hs[i].tableName
    ensures BuildPreloads(hs)[hs[i].tableName] == PreloadQuery(hs[i])
    decreases |hs|
  {
    if i < |hs| - 1 {
      LastRelationWins(hs[..|hs| - 1], i);
    }
  }

  /** The fields of the example's `User` struct. */
  function UserFields(): seq<Field>
  {
    [Field("id", PathType("i32", "i32"), [true], []),
     Field("username", PathType("String", "String"), [], []),
     Field("orders", PathType("Vec", "Vec<Order>"), [], [[ForeignKeyArg("user_id"), TableNameArg("orders")]])]
  }

  /**
   * The example's `User` becomes the table "users" with an id SERIAL primary
   * key, a VARCHAR(150) username and no column for its orders, and one
   * relation to "orders" through "user_id" named `Order`.
   */
  lemma UserEntity()
    ensures FieldsValid(UserFields())
    ensures ToEntity("User", UserFields()) == Some(DerivedEntity(
              "users", "User", [HasMany(Some("user_id"), "Order", "orders")],
              [A.ColumnDef("id", A.Custom(["SERIAL"]), [A.ColumnOptionDef(None, A.Unique(true))]),
               A.ColumnDef("username", A.Varchar(Some(150)), [A.ColumnOptionDef(None, A.NotNull)])]))
  {
    UserColumns();
    UserRelations();
    UserTableName();
  }

  lemma UserTableName()
    ensures DefaultTableName("User") == "users"
  {
    var t := DefaultTableName("User");
    assert t[0] == ToLowerAscii('U') == 'u';
  }

  lemma UserColumns()
    ensures DeriveColumns(UserFields()) == [SerialKey("id"), NotNullColumn("username", "String")]
    ensures EvalColumns([SerialKey("id"), NotNullColumn("username", "String")])
         == Some([A.ColumnDef("id", A.Custom(["SERIAL"]), [A.ColumnOptionDef(None, A.Unique(true))]),
                  A.ColumnDef("username", A.Varchar(Some(150)), [A.ColumnOptionDef(None, A.NotNull)])])
  {
    UserPlans();
    StringColumn("username");
    TwoPlans(SerialKey("id"), NotNullColumn("username", "String"));
  }

  lemma UserPlans()
    ensures DeriveColumns(UserFields()) == [SerialKey("id"), NotNullColumn("username", "String")]
  {
    var fs := UserFields();
    KeyValueVecColumns(fs[0], fs[1], fs[2]);
    assert fs == [fs[0], fs[1], fs[2]];
  }

  /** A `String` field becomes a VARCHAR(150) NOT NULL column. */
  lemma StringColumn(name: string)
    ensures ColumnOf(NotNullColumn(name, "String"))
         == Some(A.ColumnDef(name, A.Varchar(Some(150)), [A.ColumnOptionDef(None, A.NotNull)]))
  {
  }

  /**
   * The shape of the example's struct: an auto-increment key, a plain field
   * and a vector field give two columns, key first.
   */
  lemma KeyValueVecColumns(key: Field, plain: Field, many: Field)
    requires AutoIncrement(key)
    requires !AutoIncrement(plain) && !IsVec(plain.ty)
    requires !AutoIncrement(many) && IsVec(many.ty)
    ensures DeriveColumns([key, plain, many]) == [SerialKey(key.name), NotNullColumn(plain.name, plain.ty.text)]
  {
    DeriveColumnsAppend([key], [plain]);
    DeriveColumnsAppend([key, plain], [many]);
    assert [key] + [plain] == [key, plain];
    assert [key, plain] + [many] == [key, plain, many];
    OneFieldColumns(key);
    OneFieldColumns(plain);
    OneFieldColumns(many);
  }

  /** Two plans that both evaluate give their two columns in order. */
  lemma TwoPlans(p: ColumnPlan, q: ColumnPlan)
    requires ColumnOf(p).Some? && ColumnOf(q).Some?
    ensures EvalColumns([p, q]) == Some([ColumnOf(p).value, ColumnOf(q).value])
  {
    EvalSnoc([], p);
    assert [] + [p] == [p] && [] + [ColumnOf(p).value] == [ColumnOf(p).value];
    EvalSnoc([p], q);
    assert [p] + [q] == [p, q];
    assert [ColumnOf(p).value] + [ColumnOf(q).value] == [ColumnOf(p).value, ColumnOf(q).value];
  }

  /** A plan that evaluates extends the columns of the plans before it. */
  lemma EvalSnoc(plans: seq<ColumnPlan>, q: ColumnPlan)
    requires (forall i :: 0 <= i < |plans| ==> ColumnOf(plans[i]).Some?) && ColumnOf(q).Some?
    ensures EvalColumns(plans + [q]) == Some(EvalColumns(plans).value + [ColumnOf(q).value])
  {
    assert (plans + [q])[..|plans|] == plans;
  }

  lemma UserRelations()
    ensures FieldsValid(UserFields())
    ensures HasManyOf(UserFields()) == Some([HasMany(Some("user_id"), "Order", "orders")])
  {
    var fs := UserFields();
    assert fs[..2] == [fs[0], fs[1]];
    NoTableState(fs[..2]);
    var st := HasManyAfter(fs[..2]).value;
    var args := [ForeignKeyArg("user_id"), TableNameArg("orders")];
    assert fs[2].hasMany == [args];
    OneAttribute(st, args);
    TwoArgs(st, "user_id", "orders");
    assert ValidTableName("orders");
    assert TableToStructName("orders") == "Order";
  }
}
