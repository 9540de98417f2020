/**
 * Rendering of literal values, expressions and VALUES bodies
 * (chela_query/src/values.rs and the `Expr` part of chela_query/src/query.rs).
 */
module ExprDisplay {
  import opened Ast
  import opened Separated
  import opened Decimal

  /**
   * `Value`'s `Display`: a string literal goes between single quotes exactly as
   * given (no escaping of quotes inside it); a number is its digit text, with a
   * '-' in front when it is negated.
   */
  function RenderValue(v: Value): (r: string)
    ensures v.SingleQuotedString? ==>
      |r| == |v.text| + 2 && r[0] == '\'' && r[|r| - 1] == '\'' && r[1..|r| - 1] == v.text
    ensures v.Number? && !v.negated ==> r == v.digits
    ensures v.Number? && v.negated ==> |r| == |v.digits| + 1 && r[0] == '-' && r[1..] == v.digits
  {
    match v
    case SingleQuotedString(s) => "'" + s + "'"
    case Number(s, negated) => if negated then "-" + s else s
  }

  /** A value whose number text, if any, is a non-empty digit string. */
  predicate WellFormedValue(v: Value)
  {
    v.Number? ==> |v.digits| >= 1 && AllDigits(v.digits)
  }

  /**
   * `Expr`'s `Display` (query.rs:110-121, with identifiers rendered as their
   * name): an IN list ends with its closing parenthesis and starts with
   * "NOT " when negated.
   */
  function RenderExpr(e: Expr): (r: string)
    ensures e.Identifier? ==> r == e.name
    ensures e.InList? ==> |r| > 0 && r[|r| - 1] == ')'
    ensures e.InList? && e.negated ==> "NOT " <= r
    decreases e
  {
    match e
    case Value(v) => RenderValue(v)
    case Identifier(name) => name
    case InList(subject, list, negated) =>
      (if negated then "NOT " else "") + RenderExpr(subject) + " IN (" + CommaSeparated(RenderExprs(list)) + ")"
  }

  /** The rendering of each expression of a list, in order. */
  function RenderExprs(es: seq<Expr>): (r: seq<string>)
    ensures |r| == |es|
    ensures forall i :: 0 <= i < |es| ==> r[i] == RenderExpr(es[i])
    decreases es
  {
    if |es| == 0 then [] else [RenderExpr(es[0])] + RenderExprs(es[1..])
  }

  /** One VALUES row: its expressions comma-separated inside parentheses. */
  function RenderRow(row: seq<Expr>): string
  {
    "(" + CommaSeparated(RenderExprs(row)) + ")"
  }

  function RenderRows(rows: seq<seq<Expr>>): (r: seq<string>)
    ensures |r| == |rows|
    ensures forall i :: 0 <= i < |rows| ==> r[i] == RenderRow(rows[i])
  {
    seq(|rows|, i requires 0 <= i < |rows| => RenderRow(rows[i]))
  }

  /** `Values`' `Display`: "VALUES " and then the rows back to back. */
  function RenderValues(vs: Values): (r: string)
    ensures "VALUES " <= r
  {
    "VALUES " + Concat(RenderRows(vs.rows))
  }

  /**
   * Leaf expressions: a value prints exactly as the value, and an identifier
   * as its bare name, without quotes.
   */
  lemma LeafExprs(v: Value, name: Ident)
    ensures RenderExpr(Value(v)) == RenderValue(v)
    ensures RenderExpr(Identifier(name)) == name
  {
  }

  /**
   * Number literals and string literals cannot be confused in the output:
   * different well-formed values render differently.
   */
  lemma RenderValueInjective(a: Value, b: Value)
    requires WellFormedValue(a) && WellFormedValue(b)
    requires RenderValue(a) == RenderValue(b)
    ensures a == b
  {
  }

  /**
   * A negated membership test writes "NOT " in front of the whole test, that
   * is in front of the subject, not between the subject and "IN".
   */
  lemma InListNegation(subject: Expr, list: seq<Expr>)
    ensures RenderExpr(InList(subject, list, true)) == "NOT " + RenderExpr(InList(subject, list, false))
    ensures RenderExpr(InList(subject, list, false))
         == RenderExpr(subject) + " IN (" + CommaSeparated(RenderExprs(list)) + ")"
  {
    var head := RenderExpr(subject);
    var items := CommaSeparated(RenderExprs(list));
    InListUnfold(subject, list, false);
    InListUnfold(subject, list, true);
    PrefixedTest("NOT ", head, items);
    PrefixedTest("", head, items);
  }

  lemma InListUnfold(subject: Expr, list: seq<Expr>, negated: bool)
    ensures RenderExpr(InList(subject, list, negated))
         == (if negated then "NOT " else "") + RenderExpr(subject) + " IN (" + CommaSeparated(RenderExprs(list)) + ")"
  {
  }

  /** Reassociating the text of a membership test behind a prefix. */
  lemma PrefixedTest(prefix: string, head: string, items: string)
    ensures prefix + head + " IN (" + items + ")" == prefix + (head + " IN (" + items + ")")
    ensures "" + head == head
  {
  }

  /** Appending a row appends its parenthesised group, with no separator. */
  lemma ValuesAppendRow(rows: seq<seq<Expr>>, row: seq<Expr>)
    ensures RenderValues(Values(rows + [row])) == RenderValues(Values(rows)) + RenderRow(row)
  {
    var all := RenderRows(rows + [row]);
    assert all == RenderRows(rows) + [RenderRow(row)];
    ConcatAppend(RenderRows(rows), [RenderRow(row)]);
    ConcatSingleton(RenderRow(row));
  }

  /** The empty row that `InsertBuilder::new` starts from renders as "VALUES ()". */
  lemma SingleEmptyRow()
    ensures RenderValues(Values([[]])) == "VALUES ()"
  {
    ValuesAppendRow([], []);
  }
}
