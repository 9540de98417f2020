/**
 * The repository code of the example application (example/src/main.rs): the
 * INSERT column list, the preload lookup, and the reassembly step of `load`
 * that groups fetched orders and hands each user its group.  The database
 * round trips are left out; fetched rows arrive as sequences.
 */
module Example {
  import opened Wrappers
  import opened Decimal
  import opened Separated
  import A = Ast
  import QB = QueryBuilder
  import IB = InsertBuilder
  import opened QueryDisplay
  import opened InsertDisplay
  import opened Shorthand
  import D = Derive

  /** An `f64` payload, kept as its raw bits: it is only ever copied. */
  datatype Price = Price(bits: bv64)

  /** A parent row as fetched: the user without its orders. */
  datatype UserOuter = UserOuter(id: i32, username: string)

  datatype Order = Order(id: i32, userId: i32, price: Price)

  datatype User = User(id: i32, username: string, orders: seq<Order>)

  function OrderId(o: Order): i32
  {
    o.id
  }

  function OrderUserId(o: Order): i32
  {
    o.userId
  }

  /** Reference definition of a group: the items with key `k`, in their original order. */
  function Matching<T, K(==)>(items: seq<T>, key: T -> K, k: K): (r: seq<T>)
    ensures |r| <= |items|
    ensures forall x :: x in r ==> x in items && key(x) == k
    decreases |items|
  {
    if |items| == 0 then []
    else
      var last := items[|items| - 1];
      Matching(items[..|items| - 1], key, k) + (if key(last) == k then [last] else [])
  }

  /**
   * `into_group_map_by`: a map from each key that occurs to the items
   * carrying it, each group in encounter order.
   */
  function GroupBy<T, K(==)>(items: seq<T>, key: T -> K): (r: map<K, seq<T>>)
    ensures forall i :: 0 <= i < |items| ==> key(items[i]) in r
    ensures forall k :: k in r ==> |r[k]| > 0
    decreases |items|
  {
    if |items| == 0 then map[]
    else
      var g := GroupBy(items[..|items| - 1], key);
      var last := items[|items| - 1];
      var k := key(last);
      g[k := (if k in g then g[k] else []) + [last]]
  }

  /**
   * Each group is exactly the items with that key, in order, and a key has a
   * group exactly when some item carries it.
   */
  lemma {:induction false} GroupByIsMatching<T, K>(items: seq<T>, key: T -> K, k: K)
    ensures k in GroupBy(items, key) <==> |Matching(items, key, k)| > 0
    ensures k in GroupBy(items, key) ==> GroupBy(items, key)[k] == Matching(items, key, k)
    decreases |items|
  {
    if |items| > 0 {
      GroupByIsMatching(items[..|items| - 1], key, k);
    }
  }

  /** The parent ids, one per parent, in parent order. */
  function ParentIds(parents: seq<UserOuter>): (r: seq<i32>)
    ensures |r| == |parents|
    ensures forall i :: 0 <= i < |parents| ==> r[i] == parents[i].id
  {
    seq(|parents|, i requires 0 <= i < |parents| => parents[i].id)
  }

  /**
   * The reassembly: one user per parent, in parent order, with the parent's
   * id and name and the group looked up under the parent's id.  The lookup
   * indexes the map, so every parent id must have a group.
   */
  function Reassemble(parents: seq<UserOuter>, groups: map<i32, seq<Order>>): (r: seq<User>)
    requires forall i :: 0 <= i < |parents| ==> parents[i].id in groups
    ensures |r| == |parents|
    ensures forall i :: 0 <= i < |parents| ==>
              r[i].id == parents[i].id && r[i].username == parents[i].username
              && r[i].orders == groups[parents[i].id]
  {
    seq(|parents|, i requires 0 <= i < |parents| => User(parents[i].id, parents[i].username, groups[parents[i].id]))
  }

  /** The same reassembly, giving a parent without a group no orders instead of aborting. */
  function ReassembleTotal(parents: seq<UserOuter>, groups: map<i32, seq<Order>>): (r: seq<User>)
    ensures |r| == |parents|
    ensures forall i :: 0 <= i < |parents| ==>
              r[i].id == parents[i].id && r[i].username == parents[i].username
              && r[i].orders == (if parents[i].id in groups then groups[parents[i].id] else [])
  {
    seq(|parents|, i requires 0 <= i < |parents| =>
      User(parents[i].id, parents[i].username,
           if parents[i].id in groups then groups[parents[i].id] else []))
  }

  /** Where the aborting reassembly is defined, the total one agrees with it. */
  lemma ReassembleAgrees(parents: seq<UserOuter>, groups: map<i32, seq<Order>>)
    requires forall i :: 0 <= i < |parents| ==> parents[i].id in groups
    ensures ReassembleTotal(parents, groups) == Reassemble(parents, groups)
  {
  }

  /**
   * `load` as written: the orders are grouped by their own id, and each user
   * gets the orders whose id equals the user's id.  It aborts unless every
   * user id is also the id of some order.
   */
  function LoadAsWritten(parents: seq<UserOuter>, orders: seq<Order>): (r: seq<User>)
    requires forall i :: 0 <= i < |parents| ==> parents[i].id in GroupBy(orders, OrderId)
    ensures |r| == |parents|
    ensures forall i :: 0 <= i < |parents| ==>
              r[i].id == parents[i].id && r[i].username == parents[i].username
              && r[i].orders == Matching(orders, OrderId, parents[i].id)
  {
    var groups := GroupBy(orders, OrderId);
    var r := Reassemble(parents, groups);
    assert forall i :: 0 <= i < |parents| ==> r[i].orders == Matching(orders, OrderId, parents[i].id) by {
      forall i | 0 <= i < |parents|
        ensures r[i].orders == Matching(orders, OrderId, parents[i].id)
      {
        GroupByIsMatching(orders, OrderId, parents[i].id);
      }
    }
    r
  }

  /**
   * `load` as evidently intended: the orders are grouped by the user they
   * belong to, and each user gets exactly its own orders, in fetched order;
   * a user without orders gets none.
   */
  function LoadIntended(parents: seq<UserOuter>, orders: seq<Order>): (r: seq<User>)
    ensures |r| == |parents|
    ensures forall i :: 0 <= i < |parents| ==>
              r[i].id == parents[i].id && r[i].username == parents[i].username
              && r[i].orders == Matching(orders, OrderUserId, parents[i].id)
  {
    var groups := GroupBy(orders, OrderUserId);
    var r := ReassembleTotal(parents, groups);
    assert forall i :: 0 <= i < |parents| ==> r[i].orders == Matching(orders, OrderUserId, parents[i].id) by {
      forall i | 0 <= i < |parents|
        ensures r[i].orders == Matching(orders, OrderUserId, parents[i].id)
      {
        GroupByIsMatching(orders, OrderUserId, parents[i].id);
      }
    }
    r
  }

  /** Every order the intended load hands a user belongs to that user. */
  lemma IntendedOrdersBelong(parents: seq<UserOuter>, orders: seq<Order>, i: int, o: Order)
    requires 0 <= i < |parents| && o in LoadIntended(parents, orders)[i].orders
    ensures o in orders && o.userId == parents[i].id
  {
  }

  /** The price of the example's order, the bits of the `f64` 200.0. */
  const Price200: Price := Price(0x4069_0000_0000_0000)

  /**
   * `preload_has_many_works`: user 1 "origin" with order {1, 1, 200.0} is
   * reassembled with that order.  Here the order's own id happens to equal
   * its user id, so grouping by either key gives the same result.
   */
  lemma PreloadHasManyTest()
    ensures 1 in GroupBy([Order(1, 1, Price200)], OrderId)
    ensures LoadAsWritten([UserOuter(1, "origin")], [Order(1, 1, Price200)])
         == [User(1, "origin", [Order(1, 1, Price200)])]
    ensures LoadIntended([UserOuter(1, "origin")], [Order(1, 1, Price200)])
         == [User(1, "origin", [Order(1, 1, Price200)])]
  {
    var os := [Order(1, 1, Price200)];
    assert os[..0] == [];
    assert Matching(os, OrderId, 1) == [os[0]];
    assert Matching(os, OrderUserId, 1) == [os[0]];
  }

  /**
   * Grouping by the order's own id hands a user the orders of someone else:
   * user 1 receives order 1, which belongs to user 2, while its own order 2
   * goes to user 2.
   */
  lemma LoadMisassigns()
    ensures 1 in GroupBy([Order(1, 2, Price200), Order(2, 1, Price200)], OrderId)
    ensures 2 in GroupBy([Order(1, 2, Price200), Order(2, 1, Price200)], OrderId)
    ensures LoadAsWritten([UserOuter(1, "a"), UserOuter(2, "b")], [Order(1, 2, Price200), Order(2, 1, Price200)])[0].orders
         == [Order(1, 2, Price200)]
    ensures LoadIntended([UserOuter(1, "a"), UserOuter(2, "b")], [Order(1, 2, Price200), Order(2, 1, Price200)])[0].orders
         == [Order(2, 1, Price200)]
  {
    var os := [Order(1, 2, Price200), Order(2, 1, Price200)];
    assert os[..1] == [os[0]] && os[..1][..0] == [];
    assert Matching(os, OrderId, 1) == [os[0]];
    assert Matching(os, OrderUserId, 1) == [os[1]];
  }

  /**
   * A user without orders makes the written load abort: its id has no group.
   * The intended load gives that user no orders.
   */
  lemma LoadAbortsWithoutOrders(name: string)
    ensures 1 !in GroupBy([], OrderId)
    ensures LoadIntended([UserOuter(1, name)], []) == [User(1, name, [])]
  {
  }

  /** `Column::is_primary`: some option of the column is PRIMARY KEY. */
  predicate IsPrimary(c: A.ColumnDef)
  {
    exists k :: 0 <= k < |c.options| && c.options[k].option == A.Unique(true)
  }

  /** `insert`'s column list: the names of the columns that are not primary keys, in order. */
  function InsertColumns(cols: seq<A.ColumnDef>): (r: seq<string>)
    ensures |r| <= |cols|
    ensures forall n :: n in r ==> exists i :: 0 <= i < |cols| && cols[i].name == n && !IsPrimary(cols[i])
    ensures forall i :: 0 <= i < |cols| && !IsPrimary(cols[i]) ==> cols[i].name in r
    decreases |cols|
  {
    if |cols| == 0 then []
    else
      var last := cols[|cols| - 1];
      InsertColumns(cols[..|cols| - 1]) + (if IsPrimary(last) then [] else [last.name])
  }

  /** One column is inserted exactly when it is not a primary key. */
  lemma OneInsertColumn(c: A.ColumnDef)
    ensures InsertColumns([c]) == if IsPrimary(c) then [] else [c.name]
  {
    assert [c][..0] == [];
  }

  /** The filter keeps order: the columns of two runs are those of the first, then the second. */
  lemma {:induction false} InsertColumnsAppend(a: seq<A.ColumnDef>, b: seq<A.ColumnDef>)
    ensures InsertColumns(a + b) == InsertColumns(a) + InsertColumns(b)
    decreases |b|
  {
    if |b| == 0 {
      assert a + b == a;
    } else {
      var b' := b[..|b| - 1];
      assert (a + b)[..|a + b| - 1] == a + b';
      assert (a + b)[|a + b| - 1] == b[|b| - 1];
      InsertColumnsAppend(a, b');
    }
  }

  /** The derived `User` entity inserts only its username: the serial key is left to the database. */
  lemma UserInsertColumns(key: string, name: string, t: A.DataType)
    ensures InsertColumns([A.ColumnDef(key, A.Custom(["SERIAL"]), [A.ColumnOptionDef(None, A.Unique(true))]),
                           A.ColumnDef(name, t, [A.ColumnOptionDef(None, A.NotNull)])])
         == [name]
  {
    var id := A.ColumnDef(key, A.Custom(["SERIAL"]), [A.ColumnOptionDef(None, A.Unique(true))]);
    var other := A.ColumnDef(name, t, [A.ColumnOptionDef(None, A.NotNull)]);
    assert IsPrimary(id) by {
      assert id.options[0].option == A.Unique(true);
    }
    assert !IsPrimary(other);
    assert [id, other][..1] == [id] && [id][..0] == [];
  }

  /**
   * `create` for a user: `insert_into(users).columns([username]).values([name])`
   * renders as "INSERT INTO users (username) VALUES ('<name>')".
   */
  lemma CreateUserText(name: string)
    ensures RenderInsert(IB.Build(IB.SetValues(IB.Columns(InsertInto("users"), ["username"]), [name])))
         == "INSERT INTO users (username) " + ("VALUES " + ("('" + name + "')"))
  {
    InsertText("users", ["username"], [name]);
    assert CommaSeparated(["username"]) == "username";
    assert QuotedTexts([name]) == ["'" + name + "'"];
    assert CommaSeparated(["'" + name + "'"]) == "'" + name + "'";
    assert "INSERT INTO " + "users" + " (" + "username" + ") " == "INSERT INTO users (username) ";
    assert "(" + ("'" + name + "'") + ")" == "('" + name + "')";
  }

  /**
   * The preload lookup followed by `in_list(ids)`: the table's stored query
   * with its pending subject matched against the ids; every other clause of
   * the stored query carries over unchanged.  Indexing the map aborts
   * for a table without a preload.
   */
  function LoadQuery(preloads: map<string, QB.Builder>, table: string, ids: seq<i32>): (r: A.QueryStmt)
    requires table in preloads
    ensures r.body.SelectBody? && r.body.select.from == preloads[table].from
    ensures r.body.select.selection == Some(A.InList(preloads[table].whereExpr, QB.NumberLiterals(ids), false))
    ensures r.orderBy == preloads[table].orderBy && r.limit == preloads[table].limit
    ensures r.body.select.projection == preloads[table].projection && r.body.select.groupBy == preloads[table].groupBy
    ensures r.body.select.having == preloads[table].having && r.body.select.sortBy == preloads[table].sortBy
  {
    QB.Build(QB.InList(preloads[table], ids))
  }

  /**
   * For any relations with foreign keys, loading the preload of a relation's
   * table (the last relation on that table) fetches the rows whose foreign
   * key is among the ids.
   */
  lemma PreloadLoadText(hs: seq<D.HasMany>, i: int, ids: seq<i32>)
    requires D.KeysGiven(hs) && 0 <= i < |hs|
    requires forall j :: i < j < |hs| ==> hs[j].tableName != hs[i].tableName
    ensures hs[i].tableName in D.BuildPreloads(hs)
    ensures RenderQuery(LoadQuery(D.BuildPreloads(hs), hs[i].tableName, ids))
         == "SELECT * FROM " + hs[i].tableName + " WHERE "
            + (hs[i].foreignKey.value + " IN (" + CommaSeparated(IdTexts(ids)) + ")")
  {
    D.LastRelationWins(hs, i);
    InListQueryText(hs[i].tableName, hs[i].foreignKey.value, ids);
  }

  /**
   * For the derived `User` repository, the orders preload fetches the orders
   * whose user_id is among the given ids.
   */
  lemma UserOrdersQueryText(ids: seq<i32>)
    ensures "orders" in D.BuildPreloads([D.HasMany(Some("user_id"), "Order", "orders")])
    ensures RenderQuery(LoadQuery(D.BuildPreloads([D.HasMany(Some("user_id"), "Order", "orders")]), "orders", ids))
         == "SELECT * FROM orders WHERE " + ("user_id IN (" + CommaSeparated(IdTexts(ids)) + ")")
  {
    UserOrdersPreload();
    InListQueryText("orders", "user_id", ids);
    OrdersQueryPieces();
  }

  /** The orders preload of the `User` repository is `select_table("orders").where_("user_id")`. */
  lemma UserOrdersPreload()
    ensures "orders" in D.BuildPreloads([D.HasMany(Some("user_id"), "Order", "orders")])
    ensures D.BuildPreloads([D.HasMany(Some("user_id"), "Order", "orders")])["orders"]
         == QB.Where(SelectTable("orders"), "user_id")
  {
    var h := D.HasMany(Some("user_id"), "Order", "orders");
    assert D.BuildPreloads([h])["orders"] == D.PreloadQuery(h);
  }

  lemma OrdersQueryPieces()
    ensures "SELECT * FROM " + "orders" + " WHERE " == "SELECT * FROM orders WHERE "
    ensures "user_id" + " IN (" == "user_id IN ("
  {
  }
}
