/**
 * Which parts of a composed query can carry caller text.
 *
 * Every raw (`sql.SQL`) leaf of a base query or a `sum_rows` query is drawn
 * from a fixed vocabulary of texts written into the builder, whatever the
 * criteria: caller values (platforms, subplatforms, the match string, the
 * language, the dates, the author, the label names of the WHERE tests, the
 * group-by columns) reach the query only as literals or identifiers.  The one
 * exception is `sum_per_time_unit`, whose first raw leaf embeds `time_unit`.
 */
module QuerySafety {
  import opened Sql
  import opened Criteria
  import opened QueryBuilder
  import opened QueryProperties

  const SelectTexts: set<string> := {"SELECT ", ", ", "content.*", "."}

  const JoinTexts: set<string> :=
    {" ", " LEFT JOIN ", " ON ", ".id = content.id", " LEFT JOIN twitter_user tu ON ",
     ".author_id = tu.author_id", ".id = content.label_", "consp", "liwc"}

  const FilterTexts: set<string> :=
    {" WHERE 1=1", " AND ", " IS NOT NULL", " IS NULL", ",", ")", " AND platform = ", " AND platform IN (",
     " AND subplatform = ", " AND subplatform IN (", " AND language = ", " AND date BETWEEN "}

  /** The raw pieces of a string-match test with operator `op`. */
  function MatchTexts(op: string): set<string>
  {
    {" AND (text " + op + " ", " OR text_prep " + op + " ", " OR title " + op + " ", " AND title " + op + " ", ")"}
  }

  const AuthorTexts: set<string> :=
    {" AND (", " OR ", ")", AuthorText(TwitterHead), AuthorText(TwitterTail), AuthorText(DetailHead),
     AuthorText(DetailFrom), AuthorText(DetailWhere), AuthorText(DetailTail)}

  /** Every raw text a base query can contain. */
  const QueryTexts: set<string> :=
    SelectTexts + {"FROM content"} + JoinTexts + FilterTexts + MatchTexts(OpName(true)) + MatchTexts(OpName(false))
    + AuthorTexts

  /** Every raw text a `sum_rows` query can contain. */
  const AggregateTexts: set<string> := QueryTexts + {"SELECT COUNT(*)", ", COUNT(*)", " GROUP BY ", "(date)"}

  // ---------------------------------------------------------------------------
  // Section by section

  lemma DefaultSelectFixed(c: Criteria)
    ensures RawFrom(DefaultSelect(c), SelectTexts)
  {
    var parts := FieldParts(SelectedFields(c));
    forall k | 0 <= k < |parts| ensures RawFrom(parts[k], SelectTexts) {
      assert parts[k] == FieldTokens(SelectedFields(c)[k]);
    }
    JoinRawFrom([Raw(", ")], parts, SelectTexts);
    RawFromConcat([Raw("SELECT ")], Join([Raw(", ")], parts), SelectTexts);
  }

  /** The platform loop emits only platform and `twitter_user` joins. */
  lemma {:induction false} PlatformJoinsUnlabelled(ps: seq<string>, twitterListed: bool)
    ensures forall j :: j in PlatformJoins(ps, twitterListed) ==> !j.LabelJoin?
    decreases |ps|
  {
    if ps != [] {
      PlatformJoinsUnlabelled(ps[..|ps| - 1], twitterListed);
    }
  }

  /** A join's raw text is fixed once its label is one of the mapping's keys. */
  lemma JoinTokensFixed(j: JoinClause)
    requires j.LabelJoin? ==> j.name in LabelTableMapping
    ensures RawFrom(JoinTokens(j), JoinTexts)
  {
  }

  lemma JoinsFixed(c: Criteria)
    ensures var js := JoinClauses(c); js != [] ==> RawFrom(Join([Raw(" ")], JoinParts(js)), JoinTexts)
  {
    var js := JoinClauses(c);
    if MergesPlatforms(c) { PlatformJoinsUnlabelled(c.platform.value, Includes(c.platform, "twitter")); }
    if MergesLabels(c) { LabelJoinsNamed(c.labelInclusion.Elements()); }
    var parts := JoinParts(js);
    forall k | 0 <= k < |parts| ensures RawFrom(parts[k], JoinTexts) {
      assert js[k] in js;
      JoinTokensFixed(js[k]);
    }
    JoinRawFrom([Raw(" ")], parts, JoinTexts);
  }

  lemma {:induction false} LabelsFixed(ls: seq<string>, present: bool)
    ensures RawFrom(LabelsTokens(ls, present), FilterTexts)
    decreases |ls|
  {
    if ls != [] {
      LabelsFixed(ls[..|ls| - 1], present);
      RawFromConcat(LabelsTokens(ls[..|ls| - 1], present), LabelTokens(ls[|ls| - 1], present), FilterTexts);
    }
  }

  lemma LiteralListFixed(vs: seq<string>)
    ensures RawFrom([Raw(" AND platform IN (")] + LiteralList(vs) + [Raw(")")], FilterTexts)
    ensures RawFrom([Raw(" AND subplatform IN (")] + LiteralList(vs) + [Raw(")")], FilterTexts)
  {
    var parts := LiteralParts(vs);
    forall k | 0 <= k < |parts| ensures RawFrom(parts[k], FilterTexts) {
      assert parts[k] == [Lit(vs[k])];
    }
    JoinRawFrom([Raw(",")], parts, FilterTexts);
    RawFromConcat([Raw(" AND platform IN (")], LiteralList(vs), FilterTexts);
    RawFromConcat([Raw(" AND platform IN (")] + LiteralList(vs), [Raw(")")], FilterTexts);
    RawFromConcat([Raw(" AND subplatform IN (")], LiteralList(vs), FilterTexts);
    RawFromConcat([Raw(" AND subplatform IN (")] + LiteralList(vs), [Raw(")")], FilterTexts);
  }

  lemma FiltersFixed(c: Criteria)
    ensures RawFrom(WhereStart + InclusionTokens(c) + ExclusionTokens(c) + PlatformTokens(c) + SubplatformTokens(c),
                    FilterTexts)
    ensures RawFrom(LanguageTokens(c), FilterTexts) && RawFrom(DaterangeTokens(c), FilterTexts)
  {
    LabelsFixed(c.labelInclusion.Elements(), true);
    LabelsFixed(c.labelExclusion.Elements(), false);
    if PlatformGiven(c.platform) { LiteralListFixed(c.platform.value); }
    if c.subplatform.Truthy() { LiteralListFixed(c.subplatform.Elements()); }
    RawFromConcat(WhereStart, InclusionTokens(c), FilterTexts);
    RawFromConcat(WhereStart + InclusionTokens(c), ExclusionTokens(c), FilterTexts);
    RawFromConcat(WhereStart + InclusionTokens(c) + ExclusionTokens(c), PlatformTokens(c), FilterTexts);
    RawFromConcat(WhereStart + InclusionTokens(c) + ExclusionTokens(c) + PlatformTokens(c), SubplatformTokens(c), FilterTexts);
  }

  lemma StringMatchFixed(c: Criteria)
    ensures RawFrom(StringMatchTokens(c), MatchTexts(OpName(c.caseSensitivity.Truthy())))
  {
  }

  lemma BranchFixed(b: AuthorBranch, author: string)
    ensures RawFrom(BranchTokens(b, author), AuthorTexts)
  {
    assert AuthorText(TwitterHead) in AuthorTexts && AuthorText(TwitterTail) in AuthorTexts;
    assert AuthorText(DetailHead) in AuthorTexts && AuthorText(DetailFrom) in AuthorTexts;
    assert AuthorText(DetailWhere) in AuthorTexts && AuthorText(DetailTail) in AuthorTexts;
  }

  lemma AuthorConditionFixed(bs: seq<AuthorBranch>, author: string)
    ensures RawFrom(AuthorCondition(bs, author), AuthorTexts)
  {
    var parts := BranchParts(bs, author);
    forall k | 0 <= k < |parts| ensures RawFrom(parts[k], AuthorTexts) {
      assert parts[k] == BranchTokens(bs[k], author);
      BranchFixed(bs[k], author);
    }
    JoinRawFrom([Raw(" OR ")], parts, AuthorTexts);
    if bs != [] {
      RawFromConcat(Join([Raw(" OR ")], parts), [Raw(")")], AuthorTexts);
      RawFromConcat([Raw(" AND (")], Join([Raw(" OR ")], parts) + [Raw(")")], AuthorTexts);
    }
  }

  lemma AuthorFixed(c: Criteria)
    ensures RawFrom(AuthorTokens(c), AuthorTexts)
  {
    if Present(c.author) {
      AuthorConditionFixed(AuthorBranches(c.platform), c.author.value);
    }
  }

  /** The platforms the author loop names as literals. */
  const DetailPlatformNames: set<string> := {"alt_news", "legacy_news", "4chan", "reddit"}

  /** The tables the author loop names as identifiers. */
  const DetailTables: set<string> := {"alt_news", "legacy_news", "fourchan", "reddit"}

  /** The token shape of a detail branch, over its raw pieces as plain variables. */
  lemma DetailShapeValues(head: string, from: string, where: string, tail: string, p: string, table: string,
                          author: string, values: set<string>, names: set<string>)
    requires p in values && author in values && table in names
    ensures ValuesFrom([Raw(head), Lit(p), Raw(from), Ident(table), Raw(where), Lit(author), Raw(tail)], values, names)
  {
  }

  /** A branch add_author_query can build quotes the author and its platform as literals, and names only a detail table. */
  lemma BranchValues(b: AuthorBranch, author: string)
    requires b in BranchOrder
    ensures ValuesFrom(BranchTokens(b, author), {author} + DetailPlatformNames, DetailTables)
  {
    match b
    case TwitterBranch =>
    case DetailBranch(p) =>
      assert p in DetailPlatformNames && DetailTable(p) in DetailTables;
      DetailShapeValues(AuthorText(DetailHead), AuthorText(DetailFrom), AuthorText(DetailWhere), AuthorText(DetailTail),
                        p, DetailTable(p), author, {author} + DetailPlatformNames, DetailTables);
  }

  /** An author condition over branches of the loop draws its literals and identifiers from the same sets. */
  lemma AuthorConditionValues(bs: seq<AuthorBranch>, author: string)
    requires forall b :: b in bs ==> b in BranchOrder
    ensures ValuesFrom(AuthorCondition(bs, author), {author} + DetailPlatformNames, DetailTables)
  {
    var values := {author} + DetailPlatformNames;
    var parts := BranchParts(bs, author);
    forall k | 0 <= k < |parts| ensures ValuesFrom(parts[k], values, DetailTables) {
      assert parts[k] == BranchTokens(bs[k], author);
      assert bs[k] in bs;
      BranchValues(bs[k], author);
    }
    JoinValuesFrom([Raw(" OR ")], parts, values, DetailTables);
    if bs != [] {
      ValuesFromConcat(Join([Raw(" OR ")], parts), [Raw(")")], values, DetailTables);
      ValuesFromConcat([Raw(" AND (")], Join([Raw(" OR ")], parts) + [Raw(")")], values, DetailTables);
    }
  }

  /**
   * The author value enters the author condition only as a literal: every
   * literal is the author or a detail platform, every identifier is a detail
   * table, and every raw text is fixed.
   */
  lemma AuthorEntersAsLiteral(c: Criteria)
    requires Present(c.author)
    ensures ValuesFrom(AuthorTokens(c), {c.author.value} + DetailPlatformNames, DetailTables)
    ensures RawFrom(AuthorTokens(c), AuthorTexts)
  {
    AuthorBranchesSelected(c.platform);
    AuthorConditionValues(AuthorBranches(c.platform), c.author.value);
    AuthorFixed(c);
  }

  // ---------------------------------------------------------------------------
  // Whole queries

  lemma WhereClauseFixed(c: Criteria)
    ensures RawFrom(WhereClause(c), QueryTexts)
  {
    var w5 := WhereStart + InclusionTokens(c) + ExclusionTokens(c) + PlatformTokens(c) + SubplatformTokens(c);
    FiltersFixed(c);
    StringMatchFixed(c);
    AuthorFixed(c);
    RawFromWiden(w5, FilterTexts, QueryTexts);
    RawFromWiden(StringMatchTokens(c), MatchTexts(OpName(c.caseSensitivity.Truthy())), QueryTexts);
    RawFromWiden(LanguageTokens(c), FilterTexts, QueryTexts);
    RawFromWiden(DaterangeTokens(c), FilterTexts, QueryTexts);
    RawFromWiden(AuthorTokens(c), AuthorTexts, QueryTexts);
    RawFromConcat(w5, StringMatchTokens(c), QueryTexts);
    RawFromConcat(w5 + StringMatchTokens(c), LanguageTokens(c), QueryTexts);
    RawFromConcat(w5 + StringMatchTokens(c) + LanguageTokens(c), DaterangeTokens(c), QueryTexts);
    RawFromConcat(w5 + StringMatchTokens(c) + LanguageTokens(c) + DaterangeTokens(c), AuthorTokens(c), QueryTexts);
  }

  lemma TailAssemblyFixed(joins: seq<Token>, whereClause: seq<Token>)
    requires RawFrom(joins, JoinTexts) && RawFrom(whereClause, QueryTexts)
    ensures RawFrom([Raw(" "), Raw("FROM content")] + joins + whereClause, QueryTexts)
  {
    RawFromWiden(joins, JoinTexts, QueryTexts);
    RawFromConcat([Raw(" "), Raw("FROM content")], joins, QueryTexts);
    RawFromConcat([Raw(" "), Raw("FROM content")] + joins, whereClause, QueryTexts);
  }

  /** Everything after the select clause: `FROM content`, the joins and the WHERE clause. */
  lemma QueryTailFixed(c: Criteria)
    ensures RawFrom(QueryTail(c), QueryTexts)
  {
    JoinsFixed(c);
    WhereClauseFixed(c);
    var js := JoinClauses(c);
    TailAssemblyFixed(if js == [] then [] else Join([Raw(" ")], JoinParts(js)), WhereClause(c));
  }

  /**
   * `build_base_query()`: whatever the criteria, the raw text comes from the
   * builder's own vocabulary; with a custom select, from that select's and
   * the vocabulary.
   */
  lemma BaseQueryFixed(c: Criteria, customSelect: Option<seq<Token>>, vocabulary: set<string>)
    requires QueryTexts <= vocabulary
    requires customSelect.Some? ==> RawFrom(customSelect.value, vocabulary)
    ensures RawFrom(BaseQuery(c, customSelect), vocabulary)
  {
    QueryProperties.CustomSelectReplacesOnlySelect(c, customSelect);
    QueryTailFixed(c);
    RawFromWiden(QueryTail(c), QueryTexts, vocabulary);
    if customSelect.None? {
      DefaultSelectFixed(c);
      RawFromWiden(DefaultSelect(c), SelectTexts, vocabulary);
    }
    RawFromConcat(SelectClause(c, customSelect), QueryTail(c), vocabulary);
  }

  lemma IdentListFixed(cols: seq<string>)
    ensures RawFrom(IdentList(cols), {", "})
  {
    var parts := seq(|cols|, i requires 0 <= i < |cols| => [Ident(cols[i])]);
    JoinRawFrom([Raw(", ")], parts, {", "});
  }

  lemma CountSelectFixed(g: seq<Token>)
    requires RawFrom(g, {", "})
    ensures RawFrom([Raw("SELECT ")] + g + [Raw(", COUNT(*)")], AggregateTexts)
  {
    RawFromWiden(g, {", "}, AggregateTexts);
    RawFromConcat([Raw("SELECT ")], g, AggregateTexts);
    RawFromConcat([Raw("SELECT ")] + g, [Raw(", COUNT(*)")], AggregateTexts);
  }

  lemma GroupByFixed(q: seq<Token>, g: seq<Token>)
    requires RawFrom(q, AggregateTexts) && RawFrom(g, {", "})
    ensures RawFrom(q + [Raw(" GROUP BY ")] + g, AggregateTexts)
  {
    RawFromWiden(g, {", "}, AggregateTexts);
    RawFromConcat(q, [Raw(" GROUP BY ")], AggregateTexts);
    RawFromConcat(q + [Raw(" GROUP BY ")], g, AggregateTexts);
  }

  /** `sum_rows(g)`: the group-by columns are identifiers, so no caller text is raw. */
  lemma SumRowsFixed(c: Criteria, groupBy: Arg)
    ensures RawFrom(SumRowsQuery(c, groupBy), AggregateTexts)
  {
    if groupBy.Truthy() {
      var g := IdentList(GroupColumns(groupBy));
      IdentListFixed(GroupColumns(groupBy));
      CountSelectFixed(g);
      BaseQueryFixed(c, Some([Raw("SELECT ")] + g + [Raw(", COUNT(*)")]), AggregateTexts);
      GroupByFixed(BaseQuery(c, Some([Raw("SELECT ")] + g + [Raw(", COUNT(*)")])), g);
    } else {
      BaseQueryFixed(c, Some([Raw("SELECT COUNT(*)")]), AggregateTexts);
    }
  }

  lemma TimeUnitTailFixed(t: seq<Token>, timeUnit: string)
    requires RawFrom(t, QueryTexts)
    ensures RawFrom(t + [Raw(" GROUP BY "), Ident(timeUnit), Raw("(date)")], AggregateTexts)
  {
    RawFromWiden(t, QueryTexts, AggregateTexts);
    RawFromConcat(t, [Raw(" GROUP BY "), Ident(timeUnit), Raw("(date)")], AggregateTexts);
  }

  lemma DropFirst(h: Token, t: seq<Token>, g: seq<Token>)
    ensures ([h] + t + g)[1..] == t + g
  {
  }

  /**
   * `sum_per_time_unit(u)`: the first raw leaf carries `u` verbatim after
   * `SELECT `; every other raw leaf comes from the fixed vocabulary.
   */
  lemma TimeUnitIsTheOnlyRawInput(c: Criteria, timeUnit: string)
    ensures var q := SumPerTimeUnitQuery(c, timeUnit);
      && q != [] && q[0] == Raw("SELECT " + timeUnit + "(date), COUNT(*)")
      && q[0].text[7..7 + |timeUnit|] == timeUnit
      && RawFrom(q[1..], AggregateTexts)
  {
    QueryProperties.SumPerTimeUnitShape(c, timeUnit);
    QueryTailFixed(c);
    TimeUnitTailFixed(QueryTail(c), timeUnit);
    DropFirst(Raw("SELECT " + timeUnit + "(date), COUNT(*)"), QueryTail(c), [Raw(" GROUP BY "), Ident(timeUnit), Raw("(date)")]);
    assert ("SELECT " + timeUnit + "(date), COUNT(*)")[7..7 + |timeUnit|] == timeUnit;
  }
}
