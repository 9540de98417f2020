/**
 * The list-joining helper shared by the renderers: `DisplaySeparated` and
 * `display_comma_separated`.  The query crate and the migration crate each
 * carry an identical copy of it (chela_query/src/display.rs:75-110 and
 * chela/src/display.rs:6-41); both are modelled by this one definition.
 */
module Separated {

  /** Plain concatenation of a list of texts, nothing written between them. */
  function Concat(parts: seq<string>): string
  {
    if |parts| == 0 then "" else Concat(parts[..|parts| - 1]) + parts[|parts| - 1]
  }

  /**
   * The items written one after the other with `sep` between each neighbouring
   * pair.  Defined from the right end, which is the order the writer loop in
   * `DisplaySeparated::fmt` produces the text in.
   */
  function Join(items: seq<string>, sep: string): string
  {
    if |items| == 0 then ""
    else if |items| == 1 then items[0]
    else Join(items[..|items| - 1], sep) + sep + items[|items| - 1]
  }

  /** Two items are written with one separator between them. */
  lemma JoinTwo(a: string, b: string, sep: string)
    ensures Join([a, b], sep) == a + sep + b
  {
    assert [a, b][..1] == [a];
  }

  /** `display_comma_separated`: the join with separator ", ". */
  function CommaSeparated(items: seq<string>): string
  {
    Join(items, ", ")
  }

  /** Each of the items with `sep` written in front of it. */
  function Prefixed(items: seq<string>, sep: string): (r: seq<string>)
    ensures |r| == |items|
    ensures forall i :: 0 <= i < |items| ==> r[i] == sep + items[i]
  {
    seq(|items|, i requires 0 <= i < |items| => sep + items[i])
  }

  /** Sum of the lengths of the items. */
  function TotalLength(items: seq<string>): nat
  {
    if |items| == 0 then 0 else TotalLength(items[..|items| - 1]) + |items[|items| - 1]|
  }

  /**
   * `DisplaySeparated::fmt`: the writer loop that emits the pending delimiter,
   * switches the delimiter to `sep` and then emits the item.  Its output is the
   * join of the items.
   */
  method DisplaySeparated(items: seq<string>, sep: string) returns (out: string)
    ensures out == Join(items, sep)
  {
    out := "";
    var delim := "";
    var i := 0;
    while i < |items|
      invariant 0 <= i <= |items|
      invariant out == Join(items[..i], sep)
      invariant delim == if i == 0 then "" else sep
    {
      out := out + delim;
      delim := sep;
      out := out + items[i];
      assert items[..i + 1][..i] == items[..i];
      i := i + 1;
    }
    assert items[..i] == items;
  }

  lemma {:induction false} ConcatAppend(a: seq<string>, b: seq<string>)
    ensures Concat(a + b) == Concat(a) + Concat(b)
    decreases |b|
  {
    if |b| == 0 {
      assert a + b == a;
    } else {
      var b' := b[..|b| - 1];
      assert (a + b)[..|a + b| - 1] == a + b';
      ConcatAppend(a, b');
    }
  }

  lemma ConcatSingleton(x: string)
    ensures Concat([x]) == x
  {
    assert [x][..0] == [];
  }

  /** An empty list joins to the empty text; a single item joins to itself. */
  lemma JoinShort(sep: string)
    ensures Join([], sep) == ""
    ensures forall x :: Join([x], sep) == x
  {
  }

  /**
   * Joining a concatenation of two non-empty lists puts exactly one separator
   * at the seam.
   */
  lemma {:induction false} JoinAppend(a: seq<string>, b: seq<string>, sep: string)
    requires |a| > 0 && |b| > 0
    ensures Join(a + b, sep) == Join(a, sep) + sep + Join(b, sep)
    decreases |b|
  {
    var ab := a + b;
    if |b| == 1 {
      assert ab[..|ab| - 1] == a;
    } else {
      var b' := b[..|b| - 1];
      assert ab[..|ab| - 1] == a + b';
      JoinAppend(a, b', sep);
    }
  }

  /**
   * A non-empty join is the first item followed by `sep + item` for every later
   * item, in order: exactly one separator in front of each item but the first.
   */
  lemma {:induction false} JoinUnfold(items: seq<string>, sep: string)
    requires |items| > 0
    ensures Join(items, sep) == items[0] + Concat(Prefixed(items[1..], sep))
    decreases |items|
  {
    if |items| == 1 {
      assert Prefixed(items[1..], sep) == [];
    } else {
      var init := items[..|items| - 1];
      JoinUnfold(init, sep);
      var p := Prefixed(items[1..], sep);
      assert p[..|p| - 1] == Prefixed(init[1..], sep);
      assert p[|p| - 1] == sep + items[|items| - 1];
    }
  }

  /** The joined text is as long as the items plus one separator per gap. */
  lemma {:induction false} JoinLength(items: seq<string>, sep: string)
    requires |items| > 0
    ensures |Join(items, sep)| == TotalLength(items) + (|items| - 1) * |sep|
    decreases |items|
  {
    if |items| > 1 {
      JoinLength(items[..|items| - 1], sep);
    } else {
      assert items[..0] == [];
    }
  }
}
