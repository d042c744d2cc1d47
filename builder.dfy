/**
 * The query text `NEOVEXQueryWrapper` composes from its criteria
 * (src/query_neovex.py, `build_base_query`, `add_platform_and_label_query`,
 * `add_author_query`, `sum_rows`, `sum_per_time_unit`), as functions of the
 * criteria record.  The class in wrapper.dfy builds the same queries step by
 * step and is proved equal to these functions; properties.dfy proves what the
 * queries look like.
 *
 * Between criteria and tokens sit small datatypes for the list entries the
 * source builds: a select-list entry (`Field`), a join clause (`JoinClause`)
 * and an author subcondition (`AuthorBranch`).  Each has a token rendering
 * that is exactly the `Composed` the source's `format` call produces.
 */
module QueryBuilder {
  import opened Sql
  import opened Criteria

  // ---------------------------------------------------------------------------
  // The fixed mapping tables of add_platform_and_label_query

  datatype TableInfo = TableInfo(table: string, fields: seq<string>)

  const PlatformTableMapping: map<string, TableInfo> := map[
    "alt_news" := TableInfo("alt_news", ["url", "author"]),
    "legacy_news" := TableInfo("legacy_news", ["meta", "terms", "author", "url", "section", "article_id"]),
    "4chan" := TableInfo("fourchan", ["media_link", "author", "nreplies", "num", "doc_id", "op", "poster_country",
                                      "referencing_comment", "searchterm", "subnum", "thread_id", "comments"]),
    "reddit" := TableInfo("reddit", ["author", "post_id", "link_id", "parent_id", "searchterm", "selftext",
                                     "terms", "type", "url"]),
    "twitter" := TableInfo("twitter", ["tweet_id", "ref", "refid", "author_id", "sampled"])
  ]

  const LabelTableMapping: map<string, TableInfo> := map[
    "consp" := TableInfo("labels_consp", ["V1_bin", "V1_prob", "V2_GR_bin", "V2_GR_prob", "V2_NWO_bin", "V2_NWO_prob"]),
    "liwc" := TableInfo("labels_liwc", ["bigwords", "segment", "wc", "allnone", "cause", "certitude", "cogproc",
                                        "differ", "discrep", "emo_anger", "emo_anx", "emo_neg", "emo_pos",
                                        "emo_sad", "emotion", "insight", "prep", "tentat"])
  ]

  /** `str.lower`, on ASCII letters. */
  function Lower(s: string): (r: string)
    ensures |r| == |s|
    ensures forall i :: 0 <= i < |s| ==> ('A' <= s[i] <= 'Z' ==> r[i] as int == s[i] as int + 32)
    ensures forall i :: 0 <= i < |s| ==> (!('A' <= s[i] <= 'Z') ==> r[i] == s[i])
  {
    seq(|s|, i requires 0 <= i < |s| => if 'A' <= s[i] <= 'Z' then (s[i] as int + 32) as char else s[i])
  }

  // ---------------------------------------------------------------------------
  // Select list and joins (add_platform_and_label_query)

  /** One entry of `selected_fields`. */
  datatype Field = ContentStar | Column(table: string, field: string)

  /** One entry of `join_clauses`. */
  datatype JoinClause =
    | PlatformJoin(table: string)       // " LEFT JOIN <t> ON <t>.id = content.id"
    | TwitterUserJoin(table: string)    // " LEFT JOIN twitter_user tu ON <t>.author_id = tu.author_id"
    | LabelJoin(table: string, name: string)  // " LEFT JOIN <t> ON <t>.id = content.label_<l>"

  /** The qualified fields of one mapped table, in the mapping's order. */
  function Columns(info: TableInfo): seq<Field>
  {
    seq(|info.fields|, i requires 0 <= i < |info.fields| => Column(info.table, info.fields[i]))
  }

  /** The fields one platform name contributes: its table's columns, or nothing when it is not mapped. */
  function PlatformColumns(p: string): seq<Field>
  {
    var key := Lower(p);
    if key in PlatformTableMapping then Columns(PlatformTableMapping[key]) else []
  }

  /** The joins one platform name contributes; `twitterListed` is whether 'twitter' is in the platform list. */
  function PlatformJoinsOf(p: string, twitterListed: bool): seq<JoinClause>
  {
    var key := Lower(p);
    if key in PlatformTableMapping then
      [PlatformJoin(PlatformTableMapping[key].table)] +
      (if twitterListed then [TwitterUserJoin(PlatformTableMapping[key].table)] else [])
    else []
  }

  /** The fields one label name contributes. */
  function LabelColumns(l: string): seq<Field>
  {
    var key := Lower(l);
    if key in LabelTableMapping then Columns(LabelTableMapping[key]) else []
  }

  /** The join one label name contributes; the join condition names the lower-cased label. */
  function LabelJoinsOf(l: string): seq<JoinClause>
  {
    var key := Lower(l);
    if key in LabelTableMapping then [LabelJoin(LabelTableMapping[key].table, key)] else []
  }

  /** Fields the merge-platform loop adds for the platform names `ps`. */
  function PlatformFields(ps: seq<string>): seq<Field>
    decreases |ps|
  {
    if ps == [] then [] else PlatformFields(ps[..|ps| - 1]) + PlatformColumns(ps[|ps| - 1])
  }

  /** Joins the merge-platform loop adds. */
  function PlatformJoins(ps: seq<string>, twitterListed: bool): seq<JoinClause>
    decreases |ps|
  {
    if ps == [] then [] else PlatformJoins(ps[..|ps| - 1], twitterListed) + PlatformJoinsOf(ps[|ps| - 1], twitterListed)
  }

  /** Fields the merge-label loop adds for the label names `ls`. */
  function LabelFields(ls: seq<string>): seq<Field>
    decreases |ls|
  {
    if ls == [] then [] else LabelFields(ls[..|ls| - 1]) + LabelColumns(ls[|ls| - 1])
  }

  /** Joins the merge-label loop adds for the label names `ls`. */
  function LabelJoins(ls: seq<string>): seq<JoinClause>
    decreases |ls|
  {
    if ls == [] then [] else LabelJoins(ls[..|ls| - 1]) + LabelJoinsOf(ls[|ls| - 1])
  }

  /** One step of the merge-platform loop, after the fields gathered so far. */
  lemma PlatformFieldsStep(fs: seq<Field>, ps: seq<string>, i: nat)
    requires i < |ps|
    ensures fs + PlatformFields(ps[..i + 1]) == fs + PlatformFields(ps[..i]) + PlatformColumns(ps[i])
  {
    var init := ps[..i + 1][..i];
    assert init == ps[..i];
    var xs, x := PlatformFields(init), PlatformColumns(ps[i]);
    assert PlatformFields(ps[..i + 1]) == xs + x;
    assert fs + (xs + x) == fs + xs + x;
  }

  /** One step of the merge-platform loop, after the joins gathered so far. */
  lemma PlatformJoinsStep(js: seq<JoinClause>, ps: seq<string>, i: nat, twitterListed: bool)
    requires i < |ps|
    ensures js + PlatformJoins(ps[..i + 1], twitterListed) == js + PlatformJoins(ps[..i], twitterListed) + PlatformJoinsOf(ps[i], twitterListed)
  {
    var init := ps[..i + 1][..i];
    assert init == ps[..i];
    var xs, x := PlatformJoins(init, twitterListed), PlatformJoinsOf(ps[i], twitterListed);
    assert PlatformJoins(ps[..i + 1], twitterListed) == xs + x;
    assert js + (xs + x) == js + xs + x;
  }

  /** One step of the merge-label loop, after the fields gathered so far. */
  lemma LabelFieldsStep(fs: seq<Field>, ls: seq<string>, i: nat)
    requires i < |ls|
    ensures fs + LabelFields(ls[..i + 1]) == fs + LabelFields(ls[..i]) + LabelColumns(ls[i])
  {
    var init := ls[..i + 1][..i];
    assert init == ls[..i];
    var xs, x := LabelFields(init), LabelColumns(ls[i]);
    assert LabelFields(ls[..i + 1]) == xs + x;
    assert fs + (xs + x) == fs + xs + x;
  }

  /** One step of the merge-label loop, after the joins gathered so far. */
  lemma LabelJoinsStep(js: seq<JoinClause>, ls: seq<string>, i: nat)
    requires i < |ls|
    ensures js + LabelJoins(ls[..i + 1]) == js + LabelJoins(ls[..i]) + LabelJoinsOf(ls[i])
  {
    var init := ls[..i + 1][..i];
    assert init == ls[..i];
    var xs, x := LabelJoins(init), LabelJoinsOf(ls[i]);
    assert LabelJoins(ls[..i + 1]) == xs + x;
    assert js + (xs + x) == js + xs + x;
  }

  predicate MergesPlatforms(c: Criteria) { c.mergePlatformData && PlatformGiven(c.platform) }
  predicate MergesLabels(c: Criteria) { c.mergeLabelData && c.labelInclusion.Truthy() }

  /** `selected_fields` as returned by add_platform_and_label_query. */
  function SelectedFields(c: Criteria): seq<Field>
  {
    [ContentStar]
    + (if MergesPlatforms(c) then PlatformFields(c.platform.value) else [])
    + (if MergesLabels(c) then LabelFields(c.labelInclusion.Elements()) else [])
  }

  /** `join_clauses` as returned by add_platform_and_label_query. */
  function JoinClauses(c: Criteria): seq<JoinClause>
  {
    (if MergesPlatforms(c) then PlatformJoins(c.platform.value, Includes(c.platform, "twitter")) else [])
    + (if MergesLabels(c) then LabelJoins(c.labelInclusion.Elements()) else [])
  }

  function FieldTokens(f: Field): seq<Token>
  {
    match f
    case ContentStar => [Raw("content.*")]
    case Column(t, n) => [Ident(t), Raw("."), Ident(n)]
  }

  function JoinTokens(j: JoinClause): seq<Token>
  {
    match j
    case PlatformJoin(t) => [Raw(" LEFT JOIN "), Ident(t), Raw(" ON "), Ident(t), Raw(".id = content.id")]
    case TwitterUserJoin(t) => [Raw(" LEFT JOIN twitter_user tu ON "), Ident(t), Raw(".author_id = tu.author_id")]
    case LabelJoin(t, l) => [Raw(" LEFT JOIN "), Ident(t), Raw(" ON "), Ident(t), Raw(".id = content.label_"), Raw(l)]
  }

  function FieldParts(fs: seq<Field>): seq<seq<Token>>
  {
    seq(|fs|, i requires 0 <= i < |fs| => FieldTokens(fs[i]))
  }

  function JoinParts(js: seq<JoinClause>): seq<seq<Token>>
  {
    seq(|js|, i requires 0 <= i < |js| => JoinTokens(js[i]))
  }

  /** The default `SELECT {}` over the selected fields joined by ", ". */
  function DefaultSelect(c: Criteria): seq<Token>
  {
    [Raw("SELECT ")] + Join([Raw(", ")], FieldParts(SelectedFields(c)))
  }

  // ---------------------------------------------------------------------------
  // WHERE predicates (build_base_query, add_author_query)
  //
  // Each criterion contributes the tokens of its `where_clause += ...` steps
  // (nothing when it is unset); the WHERE clause is `" WHERE 1=1"` followed by
  // the contributions in the source's order.

  const WhereStart: seq<Token> := [Raw(" WHERE 1=1")]

  /** `" AND {} IS NOT NULL"` (present) or `" AND {} IS NULL"` over the identifier `label_<l>`. */
  function LabelTokens(l: string, present: bool): seq<Token>
  {
    [Raw(" AND "), Ident("label_" + l), Raw(if present then " IS NOT NULL" else " IS NULL")]
  }

  /** One label test per label, in list order. */
  function LabelsTokens(ls: seq<string>, present: bool): seq<Token>
    decreases |ls|
  {
    if ls == [] then [] else LabelsTokens(ls[..|ls| - 1], present) + LabelTokens(ls[|ls| - 1], present)
  }

  /** One step of a label loop, after the clause built so far. */
  lemma LabelsStep(w: seq<Token>, ls: seq<string>, i: nat, present: bool)
    requires i < |ls|
    ensures w + LabelsTokens(ls[..i + 1], present) == w + LabelsTokens(ls[..i], present) + LabelTokens(ls[i], present)
  {
    assert ls[..i + 1][..i] == ls[..i];
  }

  function InclusionTokens(c: Criteria): seq<Token>
  {
    if c.labelInclusion.Truthy() then LabelsTokens(c.labelInclusion.Elements(), true) else []
  }

  function ExclusionTokens(c: Criteria): seq<Token>
  {
    if c.labelExclusion.Truthy() then LabelsTokens(c.labelExclusion.Elements(), false) else []
  }

  function LiteralParts(vs: seq<string>): seq<seq<Token>>
  {
    seq(|vs|, i requires 0 <= i < |vs| => [Lit(vs[i])])
  }

  /** `sql.SQL(',').join(map(sql.Literal, vs))`. */
  function LiteralList(vs: seq<string>): seq<Token>
  {
    Join([Raw(",")], LiteralParts(vs))
  }

  function PlatformTokens(c: Criteria): seq<Token>
  {
    if !PlatformGiven(c.platform) then []
    else if |c.platform.value| == 1 then [Raw(" AND platform = "), Lit(c.platform.value[0])]
    else [Raw(" AND platform IN (")] + LiteralList(c.platform.value) + [Raw(")")]
  }

  function SubplatformTokens(c: Criteria): seq<Token>
  {
    if !c.subplatform.Truthy() then []
    else if |c.subplatform.Elements()| == 1 then [Raw(" AND subplatform = "), Lit(c.subplatform.Elements()[0])]
    else [Raw(" AND subplatform IN (")] + LiteralList(c.subplatform.Elements()) + [Raw(")")]
  }

  /** The recognised values of `search_text`. */
  datatype Scope = All | Title | Text

  function ScopeOf(s: string): Option<Scope>
  {
    if s == "all" then Some(All) else if s == "title" then Some(Title) else if s == "text" then Some(Text) else None
  }

  function OpName(caseSensitive: bool): string
  {
    if caseSensitive then "LIKE" else "ILIKE"
  }

  /** The string-match test for one scope, with operator `op` and bound pattern `pat`. */
  function MatchTokens(op: string, scope: Scope, pat: string): seq<Token>
  {
    match scope
    case All => [Raw(" AND (text " + op + " "), Lit(pat), Raw(" OR text_prep " + op + " "), Lit(pat),
                 Raw(" OR title " + op + " "), Lit(pat), Raw(")")]
    case Title => [Raw(" AND title " + op + " "), Lit(pat)]
    case Text => [Raw(" AND (text " + op + " "), Lit(pat), Raw(" OR text_prep " + op + " "), Lit(pat), Raw(")")]
  }

  /** Nothing is appended when `search_text` is none of the three scopes. */
  function StringMatchTokens(c: Criteria): seq<Token>
  {
    if Present(c.stringMatch) && ScopeOf(c.searchText).Some? then
      MatchTokens(OpName(c.caseSensitivity.Truthy()), ScopeOf(c.searchText).value, "%" + c.stringMatch.value + "%")
    else []
  }

  function LanguageTokens(c: Criteria): seq<Token>
  {
    if Present(c.language) then [Raw(" AND language = "), Lit(c.language.value)] else []
  }

  function DaterangeTokens(c: Criteria): seq<Token>
  {
    if c.daterange.Some? then [Raw(" AND date BETWEEN "), Lit(c.daterange.value.0), Raw(" AND "), Lit(c.daterange.value.1)]
    else []
  }

  /** One branch of the author disjunction. */
  datatype AuthorBranch = TwitterBranch | DetailBranch(platform: string)

  /** The detail platforms of the author loop, in the loop's order. */
  const DetailPlatforms: seq<string> := ["alt_news", "legacy_news", "4chan", "reddit"]

  /** `platform == None or p in platform`. */
  predicate Includes(platform: Option<seq<string>>, p: string)
  {
    platform.None? || p in platform.value
  }

  /** The table an author branch looks in: 4chan's is `fourchan`, the others share the platform's name. */
  function DetailTable(p: string): string
  {
    if p != "4chan" then p else "fourchan"
  }

  function DetailBranches(ps: seq<string>, platform: Option<seq<string>>): seq<AuthorBranch>
    decreases |ps|
  {
    if ps == [] then []
    else
      DetailBranches(ps[..|ps| - 1], platform) +
      (if Includes(platform, ps[|ps| - 1]) then [DetailBranch(ps[|ps| - 1])] else [])
  }

  /** One step of the author loop, after the branches gathered so far. */
  lemma DetailBranchesStep(bs: seq<AuthorBranch>, ps: seq<string>, i: nat, platform: Option<seq<string>>)
    requires i < |ps|
    ensures bs + DetailBranches(ps[..i + 1], platform)
         == bs + DetailBranches(ps[..i], platform) + (if Includes(platform, ps[i]) then [DetailBranch(ps[i])] else [])
  {
    assert ps[..i + 1][..i] == ps[..i];
  }

  /** `subconditions` of add_author_query. */
  function AuthorBranches(platform: Option<seq<string>>): seq<AuthorBranch>
  {
    (if Includes(platform, "twitter") then [TwitterBranch] else []) + DetailBranches(DetailPlatforms, platform)
  }

  /** The fixed pieces of raw text around the author subqueries' placeholders. */
  datatype AuthorPiece = TwitterHead | TwitterTail | DetailHead | DetailFrom | DetailWhere | DetailTail

  /** `n` blanks. */
  function Spaces(n: nat): (r: string)
    ensures |r| == n && forall i :: 0 <= i < n ==> r[i] == ' '
  {
    seq(n, _ => ' ')
  }

  /** A new line of a triple-quoted string: the line break, `indent` blanks, then `text`. */
  function Line(indent: nat, text: string): string
  {
    "\n" + Spaces(indent) + text
  }

  /** Each piece character for character as in the source's triple-quoted strings, one source line at a time. */
  function AuthorText(piece: AuthorPiece): string
  {
    match piece
    case TwitterHead =>
      Line(20, "(platform = 'twitter' AND EXISTS (") + Line(24, "SELECT 1") + Line(24, "FROM twitter t")
      + Line(24, "JOIN twitter_user tu ON t.author_id = tu.author_id")
      + Line(24, "WHERE t.id = content.content_id AND tu.username = ")
    case TwitterTail => Line(20, "))") + Line(16, "")
    case DetailHead => Line(24, "(platform = ")
    case DetailFrom => " AND EXISTS (" + Line(28, "SELECT 1") + Line(28, "FROM ")
    case DetailWhere => " p" + Line(28, "WHERE p.id = content.content_id AND p.author = ")
    case DetailTail => Line(24, "))") + Line(20, "")
  }

  function BranchTokens(b: AuthorBranch, author: string): seq<Token>
  {
    match b
    case TwitterBranch => [Raw(AuthorText(TwitterHead)), Lit(author), Raw(AuthorText(TwitterTail))]
    case DetailBranch(p) =>
      [Raw(AuthorText(DetailHead)), Lit(p), Raw(AuthorText(DetailFrom)), Ident(DetailTable(p)),
       Raw(AuthorText(DetailWhere)), Lit(author), Raw(AuthorText(DetailTail))]
  }

  function BranchParts(bs: seq<AuthorBranch>, author: string): seq<seq<Token>>
  {
    seq(|bs|, i requires 0 <= i < |bs| => BranchTokens(bs[i], author))
  }

  /** `" AND ("`, then the branches joined by `" OR "` and a closing `")"` -- the latter two only when there is a branch. */
  function AuthorCondition(bs: seq<AuthorBranch>, author: string): seq<Token>
  {
    [Raw(" AND (")] + (if bs == [] then [] else Join([Raw(" OR ")], BranchParts(bs, author)) + [Raw(")")])
  }

  /** What add_author_query appends. */
  function AuthorTokens(c: Criteria): seq<Token>
  {
    if Present(c.author) then AuthorCondition(AuthorBranches(c.platform), c.author.value) else []
  }

  /** `where_clause` after add_author_query. */
  function WhereClause(c: Criteria): seq<Token>
  {
    WhereStart + InclusionTokens(c) + ExclusionTokens(c) + PlatformTokens(c) + SubplatformTokens(c)
    + StringMatchTokens(c) + LanguageTokens(c) + DaterangeTokens(c) + AuthorTokens(c)
  }

  // ---------------------------------------------------------------------------
  // Assembly and aggregates

  /** Everything after the select clause: `" "`, `FROM content`, the joins joined by `" "`, the WHERE clause. */
  function QueryTail(c: Criteria): seq<Token>
  {
    var js := JoinClauses(c);
    [Raw(" "), Raw("FROM content")] + (if js == [] then [] else Join([Raw(" ")], JoinParts(js))) + WhereClause(c)
  }

  /** `select_clause`: the custom select when one is given, the default one otherwise. */
  function SelectClause(c: Criteria, customSelect: Option<seq<Token>>): seq<Token>
  {
    if customSelect.Some? then customSelect.value else DefaultSelect(c)
  }

  /** `select_clause + " " + from_clause`, the joins joined by `" "` when there are any, then the WHERE clause. */
  function Assemble(selectClause: seq<Token>, js: seq<JoinClause>, whereClause: seq<Token>): seq<Token>
  {
    selectClause + [Raw(" ")] + [Raw("FROM content")]
    + (if js == [] then [] else Join([Raw(" ")], JoinParts(js))) + whereClause
  }

  /** `build_base_query(custom_select)`. */
  function BaseQuery(c: Criteria, customSelect: Option<seq<Token>>): seq<Token>
  {
    Assemble(SelectClause(c, customSelect), JoinClauses(c), WhereClause(c))
  }

  /** The columns `sum_rows` groups by: a bare string is one column. */
  function GroupColumns(g: Arg): seq<string>
  {
    WrapString(g).Elements()
  }

  /** `sql.SQL(', ').join(map(sql.Identifier, cols))`. */
  function IdentList(cols: seq<string>): seq<Token>
  {
    Join([Raw(", ")], seq(|cols|, i requires 0 <= i < |cols| => [Ident(cols[i])]))
  }

  /** The query `sum_rows(group_by)` sends. */
  function SumRowsQuery(c: Criteria, groupBy: Arg): seq<Token>
  {
    if groupBy.Truthy() then
      var g := IdentList(GroupColumns(groupBy));
      BaseQuery(c, Some([Raw("SELECT ")] + g + [Raw(", COUNT(*)")])) + [Raw(" GROUP BY ")] + g
    else
      BaseQuery(c, Some([Raw("SELECT COUNT(*)")]))
  }

  /** The select clause of `sum_per_time_unit`: `time_unit` pasted into raw SQL by an f-string. */
  function TimeUnitSelect(timeUnit: string): seq<Token>
  {
    [Raw("SELECT " + timeUnit + "(date), COUNT(*)")]
  }

  /** The query `sum_per_time_unit(time_unit)` sends. */
  function SumPerTimeUnitQuery(c: Criteria, timeUnit: string): seq<Token>
  {
    BaseQuery(c, Some(TimeUnitSelect(timeUnit))) + [Raw(" GROUP BY "), Ident(timeUnit), Raw("(date)")]
  }
}
