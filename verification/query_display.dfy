/** Rendering of SELECT queries (the `Display` impls of chela_query/src/query.rs). */
module QueryDisplay {
  import opened Wrappers
  import opened Ast
  import opened Separated
  import opened Decimal
  import opened ExprDisplay

  function RenderSelectItem(item: SelectItem): string
  {
    match item
    case Wildcard => "*"
  }

  function RenderSelectItems(items: seq<SelectItem>): (r: seq<string>)
    ensures |r| == |items|
    ensures forall i :: 0 <= i < |items| ==> r[i] == "*"
  {
    seq(|items|, i requires 0 <= i < |items| => RenderSelectItem(items[i]))
  }

  /** The mandatory head of a SELECT: "SELECT <projection> FROM <tables>". */
  function SelectHead(s: Select): string
  {
    "SELECT " + CommaSeparated(RenderSelectItems(s.projection)) + " FROM " + CommaSeparated(s.from)
  }

  /** A clause keyword followed by its text, or nothing when the part is absent. */
  function OptionalClause(keyword: string, part: Option<string>): (r: string)
    ensures part.None? ==> r == ""
    ensures part.Some? ==> r == keyword + part.value
  {
    if part.Some? then keyword + part.value else ""
  }

  function RenderOptionalExpr(e: Option<Expr>): Option<string>
  {
    if e.Some? then Some(RenderExpr(e.value)) else None
  }

  /**
   * `Select`'s `Display`: the head, then " WHERE", " GROUP BY" and " HAVING"
   * in that fixed order, each only when its part is present.  `sort_by` is
   * never written.
   */
  function RenderSelect(s: Select): (r: string)
    ensures SelectHead(s) <= r
    ensures s.selection.None? && s.groupBy.None? && s.having.None? ==> r == SelectHead(s)
  {
    SelectHead(s)
      + OptionalClause(" WHERE ", RenderOptionalExpr(s.selection))
      + OptionalClause(" GROUP BY ", s.groupBy)
      + OptionalClause(" HAVING ", RenderOptionalExpr(s.having))
  }

  /** `SetExpr`'s `Display`: exactly its payload's text. */
  function RenderSetExpr(body: SetExpr): (r: string)
    ensures body.SelectBody? ==> r == RenderSelect(body.select)
    ensures body.ValuesBody? ==> r == RenderValues(body.values)
  {
    match body
    case SelectBody(s) => RenderSelect(s)
    case ValuesBody(vs) => RenderValues(vs)
  }

  /**
   * `QueryStmt`'s `Display`: the body, then " ORDER BY <column>" and
   * " LIMIT <n>" when present; with neither, just the body.
   */
  function RenderQuery(q: QueryStmt): (r: string)
    ensures RenderSetExpr(q.body) <= r
    ensures q.orderBy.None? && q.limit.None? ==> r == RenderSetExpr(q.body)
  {
    RenderSetExpr(q.body)
      + OptionalClause(" ORDER BY ", q.orderBy)
      + OptionalClause(" LIMIT ", if q.limit.Some? then Some(IntToString(q.limit.value)) else None)
  }

  /** `sort_by` never contributes to the text. */
  lemma SortByNotRendered(s: Select, sortBy: seq<Expr>)
    ensures RenderSelect(s.(sortBy := sortBy)) == RenderSelect(s)
  {
  }

  /**
   * The optional parts of a SELECT appear in the order WHERE, GROUP BY,
   * HAVING, each right after the previous one.
   */
  lemma SelectClauseOrder(s: Select, where_: Expr, groupBy: string, having: Expr)
    requires s.selection == Some(where_) && s.groupBy == Some(groupBy) && s.having == Some(having)
    ensures RenderSelect(s)
         == SelectHead(s) + " WHERE " + RenderExpr(where_) + " GROUP BY " + groupBy + " HAVING " + RenderExpr(having)
  {
    var w, g, h := RenderExpr(where_), " GROUP BY " + groupBy, RenderExpr(having);
    assert RenderSelect(s) == SelectHead(s) + (" WHERE " + w) + g + (" HAVING " + h);
  }

  /**
   * Whatever GROUP BY and HAVING hold, " WHERE " follows the head exactly
   * when a selection is present, and the selection's own text comes right
   * after it.
   */
  lemma {:induction false} WhereFollowsHead(s: Select)
    ensures (SelectHead(s) + " WHERE " <= RenderSelect(s)) <==> s.selection.Some?
    ensures s.selection.Some? ==> SelectHead(s) + " WHERE " + RenderExpr(s.selection.value) <= RenderSelect(s)
  {
    if s.selection.Some? {
      WhereText(s);
    } else {
      NoWhereText(s);
    }
  }

  lemma WhereText(s: Select)
    requires s.selection.Some?
    ensures SelectHead(s) + " WHERE " <= RenderSelect(s)
    ensures SelectHead(s) + " WHERE " + RenderExpr(s.selection.value) <= RenderSelect(s)
  {
    var e := RenderExpr(s.selection.value);
    var rest := OptionalClause(" GROUP BY ", s.groupBy) + OptionalClause(" HAVING ", RenderOptionalExpr(s.having));
    assert RenderSelect(s) == SelectHead(s) + (" WHERE " + e) + rest;
    PrefixThroughTail(SelectHead(s), " WHERE ", e, rest);
  }

  lemma NoWhereText(s: Select)
    requires s.selection.None?
    ensures !(SelectHead(s) + " WHERE " <= RenderSelect(s))
  {
    var rest := OptionalClause(" GROUP BY ", s.groupBy) + OptionalClause(" HAVING ", RenderOptionalExpr(s.having));
    assert RenderSelect(s) == SelectHead(s) + rest;
    GroupOrHavingFirst(s.groupBy, RenderOptionalExpr(s.having));
    NoWhereAfter(SelectHead(s), rest);
  }

  lemma PrefixThroughTail(head: string, keyword: string, text: string, rest: string)
    ensures head + keyword <= head + (keyword + text) + rest
    ensures head + keyword + text <= head + (keyword + text) + rest
  {
    assert head + (keyword + text) + rest == (head + keyword) + (text + rest);
    assert head + (keyword + text) + rest == (head + keyword + text) + rest;
  }

  /** What may follow an absent WHERE starts with " G" or " H", or is empty. */
  lemma GroupOrHavingFirst(groupBy: Option<string>, having: Option<string>)
    ensures var rest := OptionalClause(" GROUP BY ", groupBy) + OptionalClause(" HAVING ", having);
      rest == "" || (|rest| >= 2 && (rest[1] == 'G' || rest[1] == 'H'))
  {
  }

  lemma NoWhereAfter(head: string, rest: string)
    requires rest == "" || (|rest| >= 2 && (rest[1] == 'G' || rest[1] == 'H'))
    ensures !(head + " WHERE " <= head + rest)
  {
    if rest == "" {
      assert |head + rest| < |head + " WHERE "|;
    } else {
      var k := |head| + 1;
      assert (head + " WHERE ")[k] == 'W' != rest[1] == (head + rest)[k];
    }
  }

  /**
   * A query with both an order and a limit renders as the body, then
   * " ORDER BY" and then " LIMIT".
   */
  lemma OrderThenLimit(q: QueryStmt, column: string, n: i64)
    requires q.orderBy == Some(column) && q.limit == Some(n)
    ensures RenderQuery(q) == RenderSetExpr(q.body) + " ORDER BY " + column + " LIMIT " + IntToString(n)
  {
  }
}
