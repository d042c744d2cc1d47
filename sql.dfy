/**
 * A model of the query-composition objects of psycopg2's `sql` module, as the
 * query builder uses them.
 *
 * A psycopg2 `Composed` is a tree of `SQL` (raw text), `Identifier` and
 * `Literal` leaves; `as_string` renders it as the concatenation of its leaves.
 * The model keeps the leaves in order and forgets the nesting, so a composed
 * query is a `seq<Token>`.  `SQL("a {} b").format(x)` becomes
 * `[Raw("a "), x, Raw(" b")]` (psycopg2 keeps only the non-empty text pieces),
 * and `+` on composed values is sequence concatenation.
 */
module Sql {

  /** One leaf of a composed query. */
  datatype Token =
    | Raw(text: string)      // sql.SQL: emitted verbatim
    | Ident(name: string)    // sql.Identifier: emitted quoted as a name
    | Lit(value: string)     // sql.Literal: emitted as a quoted, escaped value

  /** `sql.SQL(sep).join(parts)`: the parts in order, `sep` between neighbours. */
  function Join(sep: seq<Token>, parts: seq<seq<Token>>): seq<Token>
    decreases |parts|
  {
    if |parts| == 0 then []
    else if |parts| == 1 then parts[0]
    else Join(sep, parts[..|parts| - 1]) + sep + parts[|parts| - 1]
  }

  /** Every `Raw` leaf of `q` carries one of the texts in `vocabulary`. */
  predicate RawFrom(q: seq<Token>, vocabulary: set<string>)
  {
    forall i :: 0 <= i < |q| && q[i].Raw? ==> q[i].text in vocabulary
  }

  /** A vocabulary can always be widened. */
  lemma RawFromWiden(q: seq<Token>, small: set<string>, large: set<string>)
    requires RawFrom(q, small) && small <= large
    ensures RawFrom(q, large)
  {
  }

  /** Every part of `parts` draws its raw text from `vocabulary`. */
  predicate AllRawFrom(parts: seq<seq<Token>>, vocabulary: set<string>)
  {
    forall k :: 0 <= k < |parts| ==> RawFrom(parts[k], vocabulary)
  }

  lemma RawFromConcat(a: seq<Token>, b: seq<Token>, vocabulary: set<string>)
    requires RawFrom(a, vocabulary) && RawFrom(b, vocabulary)
    ensures RawFrom(a + b, vocabulary)
  {
    forall i | 0 <= i < |a + b| && (a + b)[i].Raw?
      ensures (a + b)[i].text in vocabulary
    {
      if i >= |a| { assert (a + b)[i] == b[i - |a|]; }
    }
  }

  /** Joining keeps raw text inside the vocabulary of the separator and the parts. */
  lemma {:induction false} JoinRawFrom(sep: seq<Token>, parts: seq<seq<Token>>, vocabulary: set<string>)
    requires RawFrom(sep, vocabulary) && AllRawFrom(parts, vocabulary)
    ensures RawFrom(Join(sep, parts), vocabulary)
    decreases |parts|
  {
    if |parts| > 1 {
      var init := parts[..|parts| - 1];
      assert AllRawFrom(init, vocabulary) by {
        forall k | 0 <= k < |init| ensures RawFrom(init[k], vocabulary) { assert init[k] == parts[k]; }
      }
      JoinRawFrom(sep, init, vocabulary);
      RawFromConcat(Join(sep, init), sep, vocabulary);
      assert RawFrom(parts[|parts| - 1], vocabulary);
      RawFromConcat(Join(sep, init) + sep, parts[|parts| - 1], vocabulary);
    } else if |parts| == 1 {
      assert RawFrom(parts[0], vocabulary);
    }
  }

  /** Every `Lit` leaf of `q` carries a value in `values`, and every `Ident` leaf a name in `names`. */
  predicate ValuesFrom(q: seq<Token>, values: set<string>, names: set<string>)
  {
    forall i :: 0 <= i < |q| ==> (q[i].Lit? ==> q[i].value in values) && (q[i].Ident? ==> q[i].name in names)
  }

  /** Every part of `parts` draws its literals from `values` and its identifiers from `names`. */
  predicate AllValuesFrom(parts: seq<seq<Token>>, values: set<string>, names: set<string>)
  {
    forall k :: 0 <= k < |parts| ==> ValuesFrom(parts[k], values, names)
  }

  lemma ValuesFromConcat(a: seq<Token>, b: seq<Token>, values: set<string>, names: set<string>)
    requires ValuesFrom(a, values, names) && ValuesFrom(b, values, names)
    ensures ValuesFrom(a + b, values, names)
  {
    forall i | 0 <= i < |a + b|
      ensures ((a + b)[i].Lit? ==> (a + b)[i].value in values) && ((a + b)[i].Ident? ==> (a + b)[i].name in names)
    {
      if i >= |a| { assert (a + b)[i] == b[i - |a|]; }
    }
  }

  /** Joining keeps literals and identifiers inside the sets that the separator and the parts draw on. */
  lemma {:induction false} JoinValuesFrom(sep: seq<Token>, parts: seq<seq<Token>>, values: set<string>, names: set<string>)
    requires ValuesFrom(sep, values, names) && AllValuesFrom(parts, values, names)
    ensures ValuesFrom(Join(sep, parts), values, names)
    decreases |parts|
  {
    if |parts| > 1 {
      var init := parts[..|parts| - 1];
      assert AllValuesFrom(init, values, names) by {
        forall k | 0 <= k < |init| ensures ValuesFrom(init[k], values, names) { assert init[k] == parts[k]; }
      }
      JoinValuesFrom(sep, init, values, names);
      ValuesFromConcat(Join(sep, init), sep, values, names);
      assert ValuesFrom(parts[|parts| - 1], values, names);
      ValuesFromConcat(Join(sep, init) + sep, parts[|parts| - 1], values, names);
    } else if |parts| == 1 {
      assert ValuesFrom(parts[0], values, names);
    }
  }

  /**
   * Joining one-token parts with a one-token separator alternates the two:
   * the k-th part sits at position 2k and the separator between them.  This is
   * what the `IN (...)` lists and `GROUP BY` column lists look like.
   */
  lemma {:induction false} JoinSingletons(sep: Token, parts: seq<seq<Token>>)
    requires |parts| > 0
    requires forall k :: 0 <= k < |parts| ==> |parts[k]| == 1
    ensures |Join([sep], parts)| == 2 * |parts| - 1
    ensures forall k :: 0 <= k < |parts| ==> Join([sep], parts)[2 * k] == parts[k][0]
    ensures forall k :: 0 <= k < |parts| - 1 ==> Join([sep], parts)[2 * k + 1] == sep
    decreases |parts|
  {
    if |parts| > 1 {
      var init := parts[..|parts| - 1];
      JoinSingletons(sep, init);
      var r := Join([sep], parts);
      assert r == Join([sep], init) + [sep] + parts[|parts| - 1];
      forall k | 0 <= k < |parts| ensures r[2 * k] == parts[k][0] {
        if k < |parts| - 1 { assert init[k] == parts[k]; }
      }
    }
  }

  /** A join begins with its first part. */
  lemma {:induction false} JoinStartsWithFirst(sep: seq<Token>, parts: seq<seq<Token>>)
    requires parts != []
    ensures |parts[0]| <= |Join(sep, parts)| && Join(sep, parts)[..|parts[0]|] == parts[0]
    decreases |parts|
  {
    if |parts| > 1 {
      var init := parts[..|parts| - 1];
      JoinStartsWithFirst(sep, init);
      assert init[0] == parts[0];
      var j := Join(sep, parts);
      assert j == Join(sep, init) + sep + parts[|parts| - 1];
      assert j[..|parts[0]|] == Join(sep, init)[..|parts[0]|];
    }
  }
}
