/**
 * What the composed queries look like: the order and shape of the WHERE tests,
 * the author disjunction, the select list and joins, the assembly of the full
 * and aggregate queries, and which parts of a query can carry caller text.
 */
module QueryProperties {
  import opened Sql
  import opened Criteria
  import opened QueryBuilder

  // ---------------------------------------------------------------------------
  // WHERE composition

  /** The label tests come three tokens per label, in list order. */
  lemma {:induction false} LabelsTokensInOrder(ls: seq<string>, present: bool)
    ensures |LabelsTokens(ls, present)| == 3 * |ls|
    ensures forall k :: 0 <= k < |ls| ==> LabelsTokens(ls, present)[3 * k .. 3 * k + 3] == LabelTokens(ls[k], present)
    decreases |ls|
  {
    if ls != [] {
      var init := ls[..|ls| - 1];
      LabelsTokensInOrder(init, present);
      var r := LabelsTokens(ls, present);
      assert r == LabelsTokens(init, present) + LabelTokens(ls[|ls| - 1], present);
      forall k | 0 <= k < |ls| ensures r[3 * k .. 3 * k + 3] == LabelTokens(ls[k], present) {
        if k < |ls| - 1 {
          assert init[k] == ls[k];
          assert r[3 * k .. 3 * k + 3] == LabelsTokens(init, present)[3 * k .. 3 * k + 3];
        }
      }
    }
  }

  /** `sql.SQL(',').join(map(sql.Literal, vs))`: the values as literals, in order, separated by raw commas. */
  lemma LiteralListInOrder(vs: seq<string>)
    requires vs != []
    ensures |LiteralList(vs)| == 2 * |vs| - 1
    ensures forall k :: 0 <= k < |vs| ==> LiteralList(vs)[2 * k] == Lit(vs[k])
    ensures forall k :: 0 <= k < |vs| - 1 ==> LiteralList(vs)[2 * k + 1] == Raw(",")
  {
    JoinSingletons(Raw(","), LiteralParts(vs));
  }

  /** The platform test: `= Lit` for one platform, `IN (Lit,...)` in list order for several. */
  lemma PlatformTestShape(c: Criteria)
    requires PlatformGiven(c.platform)
    ensures |c.platform.value| == 1 ==> PlatformTokens(c) == [Raw(" AND platform = "), Lit(c.platform.value[0])]
    ensures |c.platform.value| > 1 ==>
      var ps := c.platform.value;
      var t := PlatformTokens(c);
      && |t| == 2 * |ps| + 1
      && t[0] == Raw(" AND platform IN (") && t[|t| - 1] == Raw(")")
      && (forall k :: 0 <= k < |ps| ==> t[2 * k + 1] == Lit(ps[k]))
      && (forall k :: 0 <= k < |ps| - 1 ==> t[2 * k + 2] == Raw(","))
  {
    var ps := c.platform.value;
    if |ps| > 1 {
      LiteralListInOrder(ps);
      var t := PlatformTokens(c);
      assert t == [Raw(" AND platform IN (")] + LiteralList(ps) + [Raw(")")];
      forall k | 0 <= k < |ps| ensures t[2 * k + 1] == Lit(ps[k]) {
        assert t[2 * k + 1] == LiteralList(ps)[2 * k];
      }
      forall k | 0 <= k < |ps| - 1 ensures t[2 * k + 2] == Raw(",") {
        assert t[2 * k + 2] == LiteralList(ps)[2 * k + 1];
      }
    }
  }

  /**
   * The subplatform test over what iterating the stored value yields: `= Lit`
   * for one element, `IN (Lit,...)` in order for several.
   */
  lemma SubplatformTestShape(c: Criteria)
    requires c.subplatform.Truthy()
    ensures var vs := c.subplatform.Elements();
      |vs| == 1 ==> SubplatformTokens(c) == [Raw(" AND subplatform = "), Lit(vs[0])]
    ensures var vs := c.subplatform.Elements();
      var t := SubplatformTokens(c);
      |vs| > 1 ==>
      && |t| == 2 * |vs| + 1
      && t[0] == Raw(" AND subplatform IN (") && t[|t| - 1] == Raw(")")
      && (forall k :: 0 <= k < |vs| ==> t[2 * k + 1] == Lit(vs[k]))
      && (forall k :: 0 <= k < |vs| - 1 ==> t[2 * k + 2] == Raw(","))
  {
    var vs := c.subplatform.Elements();
    if |vs| > 1 {
      InListShape(" AND subplatform IN (", vs);
    }
  }

  /** `<head>(` then the values as comma-separated literals, in order, then `)`. */
  lemma InListShape(head: string, vs: seq<string>)
    requires |vs| > 1
    ensures var t := [Raw(head)] + LiteralList(vs) + [Raw(")")];
      && |t| == 2 * |vs| + 1
      && t[0] == Raw(head) && t[|t| - 1] == Raw(")")
      && (forall k :: 0 <= k < |vs| ==> t[2 * k + 1] == Lit(vs[k]))
      && (forall k :: 0 <= k < |vs| - 1 ==> t[2 * k + 2] == Raw(","))
  {
    LiteralListInOrder(vs);
    var l := LiteralList(vs);
    var t := [Raw(head)] + l + [Raw(")")];
    forall k | 0 <= k < |vs| ensures t[2 * k + 1] == Lit(vs[k]) {
      assert t[2 * k + 1] == l[2 * k];
    }
    forall k | 0 <= k < |vs| - 1 ensures t[2 * k + 2] == Raw(",") {
      assert t[2 * k + 2] == l[2 * k + 1];
    }
  }

  /**
   * The subplatform is stored unwrapped, so a bare string of several
   * characters is tested with `IN` over its single characters.
   */
  lemma SubplatformStringSplits(c: Criteria)
    requires c.subplatform.Str? && |c.subplatform.s| > 1
    ensures var s := c.subplatform.s;
      var t := SubplatformTokens(c);
      && |t| == 2 * |s| + 1
      && t[0] == Raw(" AND subplatform IN (")
      && (forall k :: 0 <= k < |s| ==> t[2 * k + 1] == Lit([s[k]]))
  {
    var s := c.subplatform.s;
    var vs := c.subplatform.Elements();
    LiteralListInOrder(vs);
    var t := SubplatformTokens(c);
    assert t == [Raw(" AND subplatform IN (")] + LiteralList(vs) + [Raw(")")];
    forall k | 0 <= k < |s| ensures t[2 * k + 1] == Lit([s[k]]) {
      assert t[2 * k + 1] == LiteralList(vs)[2 * k];
    }
  }

  /**
   * One inclusion label and one exclusion label, nothing else set: the WHERE
   * clause is `1=1` and the two tests, inclusion first.
   */
  lemma SingleLabelTests(c: Criteria, inc: string, exc: string)
    requires c.labelInclusion == List([inc]) && c.labelExclusion == List([exc])
    requires !PlatformGiven(c.platform) && !c.subplatform.Truthy() && !Present(c.stringMatch)
    requires !Present(c.language) && c.daterange.None? && !Present(c.author)
    ensures WhereClause(c) == [Raw(" WHERE 1=1"), Raw(" AND "), Ident("label_" + inc), Raw(" IS NOT NULL"),
                               Raw(" AND "), Ident("label_" + exc), Raw(" IS NULL")]
  {
    LabelsTokensInOrder([inc], true);
    LabelsTokensInOrder([exc], false);
    assert LabelsTokens([inc], true) == LabelsTokens([inc], true)[0..3];
    assert LabelsTokens([exc], false) == LabelsTokens([exc], false)[0..3];
    assert InclusionTokens(c) == [Raw(" AND "), Ident("label_" + inc), Raw(" IS NOT NULL")];
    assert ExclusionTokens(c) == [Raw(" AND "), Ident("label_" + exc), Raw(" IS NULL")];
    assert PlatformTokens(c) == SubplatformTokens(c) == StringMatchTokens(c) == [];
    assert LanguageTokens(c) == DaterangeTokens(c) == AuthorTokens(c) == [];
    assert WhereClause(c) == WhereStart + InclusionTokens(c) + ExclusionTokens(c);
  }

  /** Whether any criterion contributes a WHERE test (a string match only with a recognised scope). */
  predicate Filters(c: Criteria)
  {
    || c.labelInclusion.Truthy() || c.labelExclusion.Truthy() || PlatformGiven(c.platform)
    || c.subplatform.Truthy() || (Present(c.stringMatch) && c.searchText in SearchScopes)
    || Present(c.language) || c.daterange.Some? || Present(c.author)
  }

  /** The WHERE clause is exactly `" WHERE 1=1"` if and only if no criterion contributes a test. */
  lemma WhereClauseBareIff(c: Criteria)
    ensures WhereClause(c) == WhereStart <==> !Filters(c)
  {
    LabelsTokensInOrder(c.labelInclusion.Elements(), true);
    LabelsTokensInOrder(c.labelExclusion.Elements(), false);
    var parts := [InclusionTokens(c), ExclusionTokens(c), PlatformTokens(c), SubplatformTokens(c),
                  StringMatchTokens(c), LanguageTokens(c), DaterangeTokens(c), AuthorTokens(c)];
    assert |WhereClause(c)| == 1 + |parts[0]| + |parts[1]| + |parts[2]| + |parts[3]| + |parts[4]| + |parts[5]| + |parts[6]| + |parts[7]|;
    if Present(c.stringMatch) && c.searchText in SearchScopes {
      assert ScopeOf(c.searchText).Some?;
    }
  }

  /** The columns each recognised `search_text` scope tests. */
  function ScopeColumns(scope: Scope): seq<string>
  {
    match scope
    case All => ["text", "text_prep", "title"]
    case Title => ["title"]
    case Text => ["text", "text_prep"]
  }

  /** What precedes the k-th column test: `" AND ("` (or `" AND "` for a lone title test), then `" OR "`. */
  function Connective(scope: Scope, k: nat): string
  {
    if k > 0 then " OR " else if scope == Title then " AND " else " AND ("
  }

  /** The shape `MatchTestsEachColumn` states, for one scope. */
  predicate TestsEachColumn(t: seq<Token>, op: string, scope: Scope, pat: string)
  {
    var cols := ScopeColumns(scope);
    && |t| == 2 * |cols| + (if scope == Title then 0 else 1)
    && (forall k :: 0 <= k < |cols| ==> t[2 * k] == Raw(Connective(scope, k) + cols[k] + " " + op + " "))
    && (forall k :: 0 <= k < |cols| ==> t[2 * k + 1] == Lit(pat))
    && (scope != Title ==> t[|t| - 1] == Raw(")"))
  }

  lemma AllScopeTests(op: string, pat: string)
    ensures TestsEachColumn(MatchTokens(op, All, pat), op, All, pat)
  {
    var t := MatchTokens(op, All, pat);
    assert t[0].text == " AND (" + "text" + " " + op + " ";
    assert t[2].text == " OR " + "text_prep" + " " + op + " ";
    assert t[4].text == " OR " + "title" + " " + op + " ";
  }

  lemma TitleScopeTests(op: string, pat: string)
    ensures TestsEachColumn(MatchTokens(op, Title, pat), op, Title, pat)
  {
    var t := MatchTokens(op, Title, pat);
    assert t[0].text == " AND " + "title" + " " + op + " ";
  }

  lemma TextScopeTests(op: string, pat: string)
    ensures TestsEachColumn(MatchTokens(op, Text, pat), op, Text, pat)
  {
    var t := MatchTokens(op, Text, pat);
    assert t[0].text == " AND (" + "text" + " " + op + " ";
    assert t[2].text == " OR " + "text_prep" + " " + op + " ";
  }

  /**
   * A string-match test applies the operator to each column of its scope in
   * turn, each against the same bound pattern; the several-column scopes are
   * parenthesised.
   */
  lemma MatchTestsEachColumn(op: string, scope: Scope, pat: string)
    ensures var t := MatchTokens(op, scope, pat);
      var cols := ScopeColumns(scope);
      && |t| == 2 * |cols| + (if scope == Title then 0 else 1)
      && (forall k :: 0 <= k < |cols| ==> t[2 * k] == Raw(Connective(scope, k) + cols[k] + " " + op + " "))
      && (forall k :: 0 <= k < |cols| ==> t[2 * k + 1] == Lit(pat))
      && (scope != Title ==> t[|t| - 1] == Raw(")"))
  {
    match scope
    case All => AllScopeTests(op, pat);
    case Title => TitleScopeTests(op, pat);
    case Text => TextScopeTests(op, pat);
  }

  /**
   * With a string match set, the test uses `LIKE` exactly when
   * `case_sensitivity` is truthy, binds `%<match>%` as a literal, and is
   * left out when `search_text` is none of the three scopes.
   */
  lemma StringMatchTest(c: Criteria)
    requires Present(c.stringMatch)
    ensures c.searchText !in SearchScopes ==> StringMatchTokens(c) == []
    ensures c.searchText in SearchScopes ==>
      var op := if c.caseSensitivity.Truthy() then "LIKE" else "ILIKE";
      var scope := ScopeOf(c.searchText).value;
      var t := StringMatchTokens(c);
      && (forall k :: 0 <= k < |ScopeColumns(scope)| ==>
            t[2 * k] == Raw(Connective(scope, k) + ScopeColumns(scope)[k] + " " + op + " "))
      && (forall k :: 0 <= k < |ScopeColumns(scope)| ==> t[2 * k + 1] == Lit("%" + c.stringMatch.value + "%"))
  {
    if c.searchText in SearchScopes {
      var scope := ScopeOf(c.searchText).value;
      MatchTestsEachColumn(OpName(c.caseSensitivity.Truthy()), scope, "%" + c.stringMatch.value + "%");
    }
  }

  // ---------------------------------------------------------------------------
  // The author disjunction

  /** Every author branch, in the order add_author_query considers them. */
  const BranchOrder: seq<AuthorBranch> :=
    [TwitterBranch, DetailBranch("alt_news"), DetailBranch("legacy_news"), DetailBranch("4chan"), DetailBranch("reddit")]

  /** Whether a branch applies under the stored platform list: `None` selects every branch. */
  predicate Selected(platform: Option<seq<string>>, b: AuthorBranch)
  {
    match b
    case TwitterBranch => Includes(platform, "twitter")
    case DetailBranch(p) => Includes(platform, p)
  }

  /** `[b for b in bs if Selected(platform, b)]`. */
  function Keep(bs: seq<AuthorBranch>, platform: Option<seq<string>>): seq<AuthorBranch>
    decreases |bs|
  {
    if bs == [] then [] else Keep(bs[..|bs| - 1], platform) + IfSelected(platform, bs[|bs| - 1])
  }

  /** The branch `b` when it is selected, nothing otherwise. */
  function IfSelected(platform: Option<seq<string>>, b: AuthorBranch): seq<AuthorBranch>
  {
    if Selected(platform, b) then [b] else []
  }

  lemma KeepStep(bs: seq<AuthorBranch>, i: nat, platform: Option<seq<string>>)
    requires i < |bs|
    ensures Keep(bs[..i + 1], platform) == Keep(bs[..i], platform) + IfSelected(platform, bs[i])
  {
    assert bs[..i + 1][..i] == bs[..i];
  }

  /** Keep over five branches, unrolled. */
  lemma KeepFive(o: seq<AuthorBranch>, platform: Option<seq<string>>)
    requires |o| == 5
    ensures Keep(o, platform)
         == IfSelected(platform, o[0]) + IfSelected(platform, o[1]) + IfSelected(platform, o[2])
          + IfSelected(platform, o[3]) + IfSelected(platform, o[4])
  {
    var s0, s1, s2 := IfSelected(platform, o[0]), IfSelected(platform, o[1]), IfSelected(platform, o[2]);
    var s3, s4 := IfSelected(platform, o[3]), IfSelected(platform, o[4]);
    assert o[..0] == [];
    KeepStep(o, 0, platform);
    assert Keep(o[..1], platform) == s0;
    KeepStep(o, 1, platform);
    assert Keep(o[..2], platform) == s0 + s1;
    KeepStep(o, 2, platform);
    assert Keep(o[..3], platform) == s0 + s1 + s2;
    KeepStep(o, 3, platform);
    assert Keep(o[..4], platform) == s0 + s1 + s2 + s3;
    KeepStep(o, 4, platform);
    assert o[..5] == o;
  }

  /** The detail branches for four platform names, after the branches `t`, unrolled. */
  lemma DetailBranchesFour(t: seq<AuthorBranch>, ds: seq<string>, platform: Option<seq<string>>)
    requires |ds| == 4
    ensures t + DetailBranches(ds, platform)
         == t + IfSelected(platform, DetailBranch(ds[0])) + IfSelected(platform, DetailBranch(ds[1]))
          + IfSelected(platform, DetailBranch(ds[2])) + IfSelected(platform, DetailBranch(ds[3]))
  {
    assert ds[..0] == [] && t + [] == t;
    DetailBranchesStep(t, ds, 0, platform);
    DetailBranchesStep(t, ds, 1, platform);
    DetailBranchesStep(t, ds, 2, platform);
    DetailBranchesStep(t, ds, 3, platform);
    assert ds[..4] == ds;
  }

  lemma AuthorBranchesUnrolled(platform: Option<seq<string>>)
    ensures AuthorBranches(platform)
         == IfSelected(platform, BranchOrder[0]) + IfSelected(platform, BranchOrder[1]) + IfSelected(platform, BranchOrder[2])
          + IfSelected(platform, BranchOrder[3]) + IfSelected(platform, BranchOrder[4])
  {
    DetailBranchesFour(IfSelected(platform, TwitterBranch), DetailPlatforms, platform);
  }

  /** The subconditions are the branches the platform list selects, in the fixed order. */
  lemma AuthorBranchesSelected(platform: Option<seq<string>>)
    ensures AuthorBranches(platform) == Keep(BranchOrder, platform)
    ensures forall b :: b in AuthorBranches(platform) <==> b in BranchOrder && Selected(platform, b)
  {
    KeepFive(BranchOrder, platform);
    AuthorBranchesUnrolled(platform);
  }

  /** Without a platform list every branch is tried, twitter first. */
  lemma AllAuthorBranchesWithoutPlatform()
    ensures AuthorBranches(None) == BranchOrder
  {
    AuthorBranchesUnrolled(None);
    var o := BranchOrder;
    assert [o[0]] + [o[1]] + [o[2]] + [o[3]] + [o[4]] == o;
  }

  /**
   * With an author set but a platform list naming none of the five
   * platforms (for instance the empty list), the author test opens a
   * parenthesis it never closes: the WHERE clause ends in `" AND ("`.
   */
  lemma AuthorParenthesisLeftOpen(c: Criteria)
    requires Present(c.author) && c.platform.Some?
    requires forall b :: b in BranchOrder ==> !Selected(c.platform, b)
    ensures AuthorTokens(c) == [Raw(" AND (")]
    ensures WhereClause(c)[|WhereClause(c)| - 1] == Raw(" AND (")
  {
    AuthorBranchesUnrolled(c.platform);
    assert forall k :: 0 <= k < 5 ==> !Selected(c.platform, BranchOrder[k]);
  }

  // ---------------------------------------------------------------------------
  // Select list and joins

  /** The default select list starts with `content.*`, whatever the criteria. */
  lemma SelectStartsWithContentStar(c: Criteria)
    ensures SelectedFields(c)[0] == ContentStar
    ensures DefaultSelect(c)[..2] == [Raw("SELECT "), Raw("content.*")]
  {
    var parts := FieldParts(SelectedFields(c));
    JoinStartsWithFirst([Raw(", ")], parts);
    assert parts[0] == [Raw("content.*")];
  }

  /** `f` is a column of a table in mapping `m`, qualified by that table's name. */
  predicate ColumnOf(m: map<string, TableInfo>, f: Field)
  {
    f.Column? && exists key :: key in m && m[key].table == f.table && f.field in m[key].fields
  }

  lemma ColumnsOfEntry(m: map<string, TableInfo>, key: string)
    requires key in m
    ensures forall f :: f in Columns(m[key]) ==> ColumnOf(m, f)
  {
    forall f | f in Columns(m[key]) ensures ColumnOf(m, f) {
      var i :| 0 <= i < |Columns(m[key])| && Columns(m[key])[i] == f;
      assert m[key].fields[i] in m[key].fields;
    }
  }

  lemma {:induction false} PlatformFieldsMapped(ps: seq<string>)
    ensures forall f :: f in PlatformFields(ps) ==> ColumnOf(PlatformTableMapping, f)
    decreases |ps|
  {
    if ps != [] {
      PlatformFieldsMapped(ps[..|ps| - 1]);
      var key := Lower(ps[|ps| - 1]);
      if key in PlatformTableMapping {
        ColumnsOfEntry(PlatformTableMapping, key);
      }
    }
  }

  lemma {:induction false} LabelFieldsMapped(ls: seq<string>)
    ensures forall f :: f in LabelFields(ls) ==> ColumnOf(LabelTableMapping, f)
    decreases |ls|
  {
    if ls != [] {
      LabelFieldsMapped(ls[..|ls| - 1]);
      var key := Lower(ls[|ls| - 1]);
      if key in LabelTableMapping {
        ColumnsOfEntry(LabelTableMapping, key);
      }
    }
  }

  /** After `content.*`, every selected field is a mapped column of a platform or label table. */
  lemma SelectedFieldsMapped(c: Criteria)
    ensures forall k :: 1 <= k < |SelectedFields(c)| ==>
      ColumnOf(PlatformTableMapping, SelectedFields(c)[k]) || ColumnOf(LabelTableMapping, SelectedFields(c)[k])
  {
    var pf := if MergesPlatforms(c) then PlatformFields(c.platform.value) else [];
    var lf := if MergesLabels(c) then LabelFields(c.labelInclusion.Elements()) else [];
    if MergesPlatforms(c) { PlatformFieldsMapped(c.platform.value); }
    if MergesLabels(c) { LabelFieldsMapped(c.labelInclusion.Elements()); }
    var s := SelectedFields(c);
    assert s == [ContentStar] + pf + lf;
    forall k | 1 <= k < |s| ensures ColumnOf(PlatformTableMapping, s[k]) || ColumnOf(LabelTableMapping, s[k]) {
      if k < 1 + |pf| { assert s[k] == pf[k - 1]; assert s[k] in pf; } else { assert s[k] == lf[k - 1 - |pf|]; assert s[k] in lf; }
    }
  }

  /** `str.lower` leaves a name without capitals as it is. */
  lemma LowerKeepsLowercase(s: string)
    requires forall i :: 0 <= i < |s| ==> !('A' <= s[i] <= 'Z')
    ensures Lower(s) == s
  {
  }

  /** Merging platform data for a single platform selects its columns and adds its joins, and nothing else. */
  lemma SinglePlatformMerge(c: Criteria, p: string)
    requires c.mergePlatformData && c.platform == Some([p]) && !MergesLabels(c)
    ensures JoinClauses(c) == PlatformJoinsOf(p, p == "twitter")
    ensures SelectedFields(c) == [ContentStar] + PlatformColumns(p)
  {
    var ps := [p];
    assert ps[..0] == [];
    assert Includes(c.platform, "twitter") == (p == "twitter");
    assert PlatformJoins(ps, p == "twitter") == [] + PlatformJoinsOf(p, p == "twitter");
    assert PlatformFields(ps) == [] + PlatformColumns(p);
  }

  /**
   * Merging platform data for `["twitter"]` alone selects the twitter
   * columns and adds the twitter join (on `content.id`) followed by the
   * `twitter_user` join.
   */
  lemma MergeTwitterAlone(c: Criteria)
    requires c.mergePlatformData && c.platform == Some(["twitter"]) && !MergesLabels(c)
    ensures JoinClauses(c) == [PlatformJoin("twitter"), TwitterUserJoin("twitter")]
    ensures SelectedFields(c) == [ContentStar] + Columns(PlatformTableMapping["twitter"])
    ensures JoinTokens(JoinClauses(c)[0]) == [Raw(" LEFT JOIN "), Ident("twitter"), Raw(" ON "), Ident("twitter"), Raw(".id = content.id")]
  {
    SinglePlatformMerge(c, "twitter");
    LowerKeepsLowercase("twitter");
    assert "twitter" in PlatformTableMapping && PlatformTableMapping["twitter"].table == "twitter";
  }

  /** A platform or label name that is not in its mapping adds neither fields nor joins. */
  lemma UnmappedNamesSkipped(ns: seq<string>, n: string, twitterListed: bool)
    ensures Lower(n) !in PlatformTableMapping ==>
      PlatformFields(ns + [n]) == PlatformFields(ns) && PlatformJoins(ns + [n], twitterListed) == PlatformJoins(ns, twitterListed)
    ensures Lower(n) !in LabelTableMapping ==>
      LabelFields(ns + [n]) == LabelFields(ns) && LabelJoins(ns + [n]) == LabelJoins(ns)
  {
    assert (ns + [n])[..|ns|] == ns;
  }

  /**
   * The `twitter_user` join is added inside the per-platform loop: with
   * 'twitter' listed, every mapped platform's join is followed by its own
   * `twitter_user` join, so the join list is twice as long.
   */
  lemma {:induction false} TwitterUserJoinPerPlatform(ps: seq<string>)
    ensures forall j :: j in PlatformJoins(ps, false) ==> j.PlatformJoin?
    ensures |PlatformJoins(ps, true)| == 2 * |PlatformJoins(ps, false)|
    ensures forall k :: 0 <= k < |PlatformJoins(ps, false)| ==>
      PlatformJoins(ps, true)[2 * k] == PlatformJoins(ps, false)[k] &&
      PlatformJoins(ps, true)[2 * k + 1] == TwitterUserJoin(PlatformJoins(ps, false)[k].table)
    decreases |ps|
  {
    if ps != [] {
      var init := ps[..|ps| - 1];
      TwitterUserJoinPerPlatform(init);
      var a: seq<JoinClause>, b: seq<JoinClause> := PlatformJoins(init, true), PlatformJoins(init, false);
      var x: seq<JoinClause>, y: seq<JoinClause> := PlatformJoinsOf(ps[|ps| - 1], true), PlatformJoinsOf(ps[|ps| - 1], false);
      assert PlatformJoins(ps, true) == a + x && PlatformJoins(ps, false) == b + y;
      forall k | 0 <= k < |b + y|
        ensures (a + x)[2 * k] == (b + y)[k] && (a + x)[2 * k + 1] == TwitterUserJoin((b + y)[k].table)
      {
        if k < |b| { assert (a + x)[2 * k] == a[2 * k] && (a + x)[2 * k + 1] == a[2 * k + 1] && (b + y)[k] == b[k]; }
      }
    }
  }

  /** Every label join names a label of the mapping (the raw `content.label_<l>` suffix). */
  lemma {:induction false} LabelJoinsNamed(ls: seq<string>)
    ensures forall j :: j in LabelJoins(ls) ==> j.LabelJoin? && j.name in LabelTableMapping
    decreases |ls|
  {
    if ls != [] {
      LabelJoinsNamed(ls[..|ls| - 1]);
    }
  }

  // ---------------------------------------------------------------------------
  // Assembly and aggregates

  /** Four sequences appended after a head regroup as the head and one tail. */
  lemma AppendRegroup(s: seq<Token>, a: seq<Token>, b: seq<Token>, j: seq<Token>, w: seq<Token>)
    ensures s + a + b + j + w == s + (a + b + j + w)
  {
    assert s + a + b + j + w == s + (a + b + j + w) by {
      assert s + a + b == s + (a + b);
      assert s + (a + b) + j == s + (a + b + j);
      assert s + (a + b + j) + w == s + (a + b + j + w);
    }
  }

  /**
   * The full query is the select clause followed by a tail that does not
   * depend on it: `" "`, `FROM content`, the joins, the WHERE clause.  A
   * custom select replaces the default select list and nothing else.
   */
  lemma CustomSelectReplacesOnlySelect(c: Criteria, customSelect: Option<seq<Token>>)
    ensures customSelect.Some? ==> BaseQuery(c, customSelect) == customSelect.value + QueryTail(c)
    ensures customSelect.None? ==> BaseQuery(c, customSelect) == DefaultSelect(c) + QueryTail(c)
  {
    var js := JoinClauses(c);
    var joins := if js == [] then [] else Join([Raw(" ")], JoinParts(js));
    AppendRegroup(SelectClause(c, customSelect), [Raw(" ")], [Raw("FROM content")], joins, WhereClause(c));
    assert [Raw(" ")] + [Raw("FROM content")] == [Raw(" "), Raw("FROM content")];
  }

  /** `sql.SQL(', ').join(map(sql.Identifier, cols))`: the columns as identifiers, in order, comma-separated. */
  lemma IdentListInOrder(cols: seq<string>)
    requires cols != []
    ensures |IdentList(cols)| == 2 * |cols| - 1
    ensures forall k :: 0 <= k < |cols| ==> IdentList(cols)[2 * k] == Ident(cols[k])
    ensures forall k :: 0 <= k < |cols| - 1 ==> IdentList(cols)[2 * k + 1] == Raw(", ")
  {
    JoinSingletons(Raw(", "), seq(|cols|, i requires 0 <= i < |cols| => [Ident(cols[i])]));
  }

  /**
   * `sum_rows(g)`: with `g` set, the grouped columns as identifiers and
   * `COUNT(*)`, grouped by the same identifiers (a bare string is one
   * column); without it, a plain `SELECT COUNT(*)` over the same tail.
   */
  lemma SumRowsShape(c: Criteria, groupBy: Arg)
    ensures groupBy.Str? ==> GroupColumns(groupBy) == [groupBy.s]
    ensures groupBy.List? ==> GroupColumns(groupBy) == groupBy.items
    ensures groupBy.Truthy() ==>
      var g := IdentList(GroupColumns(groupBy));
      SumRowsQuery(c, groupBy) == [Raw("SELECT ")] + g + [Raw(", COUNT(*)")] + QueryTail(c) + [Raw(" GROUP BY ")] + g
    ensures !groupBy.Truthy() ==> SumRowsQuery(c, groupBy) == [Raw("SELECT COUNT(*)")] + QueryTail(c)
  {
    if groupBy.Truthy() {
      var g := IdentList(GroupColumns(groupBy));
      CustomSelectReplacesOnlySelect(c, Some([Raw("SELECT ")] + g + [Raw(", COUNT(*)")]));
    } else {
      CustomSelectReplacesOnlySelect(c, Some([Raw("SELECT COUNT(*)")]));
    }
  }

  /**
   * `sum_per_time_unit(u)`: `u` is pasted into the raw select text, while
   * the GROUP BY names it as a quoted identifier.
   */
  lemma SumPerTimeUnitShape(c: Criteria, timeUnit: string)
    ensures SumPerTimeUnitQuery(c, timeUnit)
         == [Raw("SELECT " + timeUnit + "(date), COUNT(*)")] + QueryTail(c) + [Raw(" GROUP BY "), Ident(timeUnit), Raw("(date)")]
  {
    CustomSelectReplacesOnlySelect(c, Some(TimeUnitSelect(timeUnit)));
  }

  /**
   * Neither `check_query` nor the WHERE clause looks at the date range beyond
   * its presence: any pair, in order or reversed, leaves the check's verdict
   * as it was and is emitted as given.
   */
  lemma DaterangeUnchecked(c: Criteria, startDate: string, endDate: string)
    ensures CheckPasses(c.(daterange := Some((startDate, endDate)))) == CheckPasses(c)
    ensures DaterangeTokens(c.(daterange := Some((startDate, endDate))))
         == [Raw(" AND date BETWEEN "), Lit(startDate), Raw(" AND "), Lit(endDate)]
  {
  }

  /** Criteria left at the constructor's defaults pass the check and select every content row. */
  lemma DefaultQuery(c: Criteria)
    requires c == Criteria(Absent, Absent, None, Absent, "all", Bool(false), None, None, None, None, false, false)
    ensures CheckPasses(c)
    ensures BaseQuery(c, None) == [Raw("SELECT "), Raw("content.*"), Raw(" "), Raw("FROM content"), Raw(" WHERE 1=1")]
  {
    WhereClauseBareIff(c);
    CustomSelectReplacesOnlySelect(c, None);
    assert SelectedFields(c) == [ContentStar];
    assert FieldParts(SelectedFields(c)) == [[Raw("content.*")]];
    assert JoinClauses(c) == [];
  }
}
