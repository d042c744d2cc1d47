/**
 * `NEOVEXQueryWrapper` (src/query_neovex.py) as a class: the constructor and
 * setters update the criteria record in place, and the query-building methods
 * grow their clauses step by step as the source does.  Each builder is proved
 * to produce exactly the query the functions of module QueryBuilder describe.
 * Running a query (`query_db`) is not modelled: the aggregate methods return
 * the query they would send.
 */
module QueryNeovex {
  import opened Sql
  import opened Criteria
  import opened QueryBuilder

  /** `self.conn_dat`: stored by the constructor, used only to connect. */
  datatype ConnData = ConnData(dbname: string, user: string, password: string, host: string, port: int)

  /**
   * The label tests of `build_base_query`: one `" AND label_<l> IS [NOT] NULL"`
   * per label, for the inclusion (`present`) or the exclusion list.
   */
  method AddLabelFilter(whereClause: seq<Token>, labels: Arg, present: bool) returns (r: seq<Token>)
    ensures r == whereClause + (if labels.Truthy() then LabelsTokens(labels.Elements(), present) else [])
  {
    r := whereClause;
    if labels.Truthy() {
      var ls := labels.Elements();
      var test := if present then " IS NOT NULL" else " IS NULL";
      if |ls| == 1 {
        r := r + [Raw(" AND "), Ident("label_" + ls[0]), Raw(test)];
        LabelsStep(whereClause, ls, 0, present);
        assert ls[..1] == ls;
      } else {
        for i := 0 to |ls|
          invariant r == whereClause + LabelsTokens(ls[..i], present)
        {
          LabelsStep(whereClause, ls, i, present);
          r := r + [Raw(" AND "), Ident("label_" + ls[i]), Raw(test)];
        }
        assert ls[..|ls|] == ls;
      }
      assert r == whereClause + LabelsTokens(ls, present);
    } else {
      assert r == whereClause + [];
    }
  }

  /** The platform test of `build_base_query`: `=` for one platform, `IN (...)` for several. */
  method AddPlatformFilter(whereClause: seq<Token>, c: Criteria) returns (r: seq<Token>)
    ensures r == whereClause + PlatformTokens(c)
  {
    r := whereClause;
    if PlatformGiven(c.platform) {
      var ps := c.platform.value;
      if |ps| == 1 {
        r := r + [Raw(" AND platform = "), Lit(ps[0])];
      } else {
        r := r + [Raw(" AND platform IN (")] + Join([Raw(",")], LiteralParts(ps)) + [Raw(")")];
      }
    }
  }

  /** The subplatform test of `build_base_query`, shaped like the platform test. */
  method AddSubplatformFilter(whereClause: seq<Token>, c: Criteria) returns (r: seq<Token>)
    ensures r == whereClause + SubplatformTokens(c)
  {
    r := whereClause;
    if c.subplatform.Truthy() {
      var ss := c.subplatform.Elements();
      if |ss| == 1 {
        r := r + [Raw(" AND subplatform = "), Lit(ss[0])];
      } else {
        r := r + [Raw(" AND subplatform IN (")] + Join([Raw(",")], LiteralParts(ss)) + [Raw(")")];
      }
    }
  }

  /** The string-match test of `build_base_query`, over the columns `search_text` names. */
  method AddStringMatchFilter(whereClause: seq<Token>, c: Criteria) returns (r: seq<Token>)
    ensures r == whereClause + StringMatchTokens(c)
  {
    r := whereClause;
    if Present(c.stringMatch) {
      var stringMatch := c.stringMatch.value;
      var matchOperator := if c.caseSensitivity.Truthy() then "LIKE" else "ILIKE";
      var pattern := "%" + stringMatch + "%";
      if c.searchText == "all" {
        r := r + [Raw(" AND (text " + matchOperator + " "), Lit(pattern),
                  Raw(" OR text_prep " + matchOperator + " "), Lit(pattern),
                  Raw(" OR title " + matchOperator + " "), Lit(pattern), Raw(")")];
      } else if c.searchText == "title" {
        r := r + [Raw(" AND title " + matchOperator + " "), Lit(pattern)];
      } else if c.searchText == "text" {
        r := r + [Raw(" AND (text " + matchOperator + " "), Lit(pattern),
                  Raw(" OR text_prep " + matchOperator + " "), Lit(pattern), Raw(")")];
      }
    }
  }

  /** The language test of `build_base_query`. */
  method AddLanguageFilter(whereClause: seq<Token>, c: Criteria) returns (r: seq<Token>)
    ensures r == whereClause + LanguageTokens(c)
  {
    r := whereClause;
    if Present(c.language) {
      r := r + [Raw(" AND language = "), Lit(c.language.value)];
    }
  }

  /** The date-range test of `build_base_query`: both bounds as literals. */
  method AddDaterangeFilter(whereClause: seq<Token>, c: Criteria) returns (r: seq<Token>)
    ensures r == whereClause + DaterangeTokens(c)
  {
    r := whereClause;
    if c.daterange.Some? {
      var (startDate, endDate) := c.daterange.value;
      r := r + [Raw(" AND date BETWEEN "), Lit(startDate), Raw(" AND "), Lit(endDate)];
    }
  }

  class QueryWrapper {
    var connData: ConnData
    var criteria: Criteria

    constructor (dbname: string, user: string, password: string, host: string, port: int := 5432,
                 labelInclusion: Arg := Absent, labelExclusion: Arg := Absent,
                 platform: Arg := Absent, subplatform: Arg := Absent,
                 searchText: string := "all", stringMatch: Option<string> := None,
                 caseSensitivity: Flag := Bool(false), language: Option<string> := None,
                 daterange: Option<(string, string)> := None, author: Option<string> := None,
                 mergePlatformData: bool := false, mergeLabelData: bool := false)
      ensures connData == ConnData(dbname, user, password, host, port)
      // the search_text argument is ignored: the scope always starts as "all"
      ensures criteria.searchText == "all"
      // merge_label_data is initialised from merge_platform_data, not from its own argument
      ensures criteria.mergeLabelData == mergePlatformData
      ensures criteria.mergePlatformData == mergePlatformData
      // the label arguments are stored as given (a bare string is not wrapped here)
      ensures criteria.labelInclusion == labelInclusion && criteria.labelExclusion == labelExclusion
      // the platform and subplatform go through their setters
      ensures criteria.platform == PlatformList(platform)
      ensures criteria.subplatform == subplatform
      ensures criteria.caseSensitivity == caseSensitivity && criteria.stringMatch == stringMatch
      ensures criteria.language == language && criteria.daterange == daterange && criteria.author == author
    {
      connData := ConnData(dbname, user, password, host, port);
      criteria := Criteria(labelInclusion, labelExclusion, None, Absent, "all", caseSensitivity, stringMatch,
                           language, daterange, author, mergePlatformData, mergePlatformData);
      new;
      SetPlatform(platform);
      SetSubplatform(subplatform);
    }

    /** A bare string becomes a one-element list. */
    method SetLabelInclusion(labels: Arg)
      modifies this`criteria
      ensures criteria == old(criteria).(labelInclusion := WrapString(labels))
    {
      var ls := labels;
      if ls.Str? {
        ls := List([ls.s]);
      }
      criteria := criteria.(labelInclusion := ls);
    }

    /** A bare string becomes a one-element list. */
    method SetLabelExclusion(labels: Arg)
      modifies this`criteria
      ensures criteria == old(criteria).(labelExclusion := WrapString(labels))
    {
      var ls := labels;
      if ls.Str? {
        ls := List([ls.s]);
      }
      criteria := criteria.(labelExclusion := ls);
    }

    /** A bare string becomes a one-element list; `None` means every platform. */
    method SetPlatform(platform: Arg)
      modifies this`criteria
      ensures criteria == old(criteria).(platform := PlatformList(platform))
    {
      var p: Option<seq<string>> := None;
      if platform.Str? {
        p := Some([platform.s]);
      } else if platform.List? {
        p := Some(platform.items);
      }
      criteria := criteria.(platform := p);
    }

    /** Stored as given: a bare string is NOT wrapped. */
    method SetSubplatform(subplatform: Arg)
      modifies this`criteria
      ensures criteria == old(criteria).(subplatform := subplatform)
    {
      criteria := criteria.(subplatform := subplatform);
    }

    method SetSearchText(searchText: string)
      modifies this`criteria
      ensures criteria == old(criteria).(searchText := searchText)
    {
      criteria := criteria.(searchText := searchText);
    }

    method SetCaseSensitivity(caseSensitivity: Flag)
      modifies this`criteria
      ensures criteria == old(criteria).(caseSensitivity := caseSensitivity)
    {
      criteria := criteria.(caseSensitivity := caseSensitivity);
    }

    method SetStringMatch(matchString: Option<string>)
      modifies this`criteria
      ensures criteria == old(criteria).(stringMatch := matchString)
    {
      criteria := criteria.(stringMatch := matchString);
    }

    method SetLanguage(language: Option<string>)
      modifies this`criteria
      ensures criteria == old(criteria).(language := language)
    {
      criteria := criteria.(language := language);
    }

    /** The two dates are stored as one pair. */
    method SetDaterange(startDate: string, endDate: string)
      modifies this`criteria
      ensures criteria == old(criteria).(daterange := Some((startDate, endDate)))
    {
      criteria := criteria.(daterange := Some((startDate, endDate)));
    }

    method SetAuthor(author: Option<string>)
      modifies this`criteria
      ensures criteria == old(criteria).(author := author)
    {
      criteria := criteria.(author := author);
    }

    method SetMergePlatformData(mergeBool: bool)
      modifies this`criteria
      ensures criteria == old(criteria).(mergePlatformData := mergeBool)
    {
      criteria := criteria.(mergePlatformData := mergeBool);
    }

    method SetMergeLabelData(mergeBool: bool)
      modifies this`criteria
      ensures criteria == old(criteria).(mergeLabelData := mergeBool)
    {
      criteria := criteria.(mergeLabelData := mergeBool);
    }

    /** `check_query`: `passes` is false exactly where the source's assertions would raise. */
    method CheckQuery() returns (passes: bool)
      ensures passes == CheckPasses(criteria)
    {
      var c := criteria;
      if PlatformGiven(c.platform) {
        var ps := c.platform.value;
        if |ps| == 1 {
          if ps[0] !in AllowedPlatforms {
            return false;
          }
        } else {
          for i := 0 to |ps|
            invariant forall k :: 0 <= k < i ==> ps[k] in AllowedPlatforms
          {
            if ps[i] !in AllowedPlatforms {
              return false;
            }
          }
        }
      }
      if c.labelExclusion.Truthy() {
        if !c.labelExclusion.List? {
          return false;
        }
        if !("liwc" in c.labelExclusion.items || "consp" in c.labelExclusion.items) {
          return false;
        }
      }
      if c.labelInclusion.Truthy() {
        if !c.labelInclusion.List? {
          return false;
        }
        if !("liwc" in c.labelInclusion.items || "consp" in c.labelInclusion.items) {
          return false;
        }
      }
      if Present(c.stringMatch) {
        if c.searchText !in SearchScopes {
          return false;
        }
      }
      passes := c.caseSensitivity.Bool?;
    }

    /** `add_platform_and_label_query`: the join clauses and the select list. */
    method AddPlatformAndLabelQuery() returns (joinClauses: seq<JoinClause>, selectedFields: seq<Field>)
      ensures joinClauses == JoinClauses(criteria)
      ensures selectedFields == SelectedFields(criteria)
    {
      selectedFields := [ContentStar];
      joinClauses := [];
      if criteria.mergePlatformData {
        if PlatformGiven(criteria.platform) {
          selectedFields, joinClauses := MergePlatformTables(selectedFields, joinClauses, criteria.platform.value);
        }
      }
      if criteria.mergeLabelData {
        if criteria.labelInclusion.Truthy() {
          selectedFields, joinClauses := MergeLabelTables(selectedFields, joinClauses, criteria.labelInclusion.Elements());
        }
      }
    }

    /** The merge-platform loop of add_platform_and_label_query over the platform names `ps`. */
    method MergePlatformTables(fields: seq<Field>, joins: seq<JoinClause>, ps: seq<string>)
      returns (selectedFields: seq<Field>, joinClauses: seq<JoinClause>)
      ensures selectedFields == fields + PlatformFields(ps)
      ensures joinClauses == joins + PlatformJoins(ps, Includes(criteria.platform, "twitter"))
    {
      selectedFields, joinClauses := fields, joins;
      ghost var twitterListed := Includes(criteria.platform, "twitter");
      for i := 0 to |ps|
        invariant selectedFields == fields + PlatformFields(ps[..i])
        invariant joinClauses == joins + PlatformJoins(ps[..i], twitterListed)
      {
        PlatformFieldsStep(fields, ps, i);
        PlatformJoinsStep(joins, ps, i, twitterListed);
        ghost var fieldsBefore, joinsBefore := selectedFields, joinClauses;
        var platform := Lower(ps[i]);
        if platform in PlatformTableMapping {
          var tableInfo := PlatformTableMapping[platform];
          selectedFields := selectedFields + Columns(tableInfo);
          joinClauses := joinClauses + [PlatformJoin(tableInfo.table)];
          if criteria.platform.None? || "twitter" in criteria.platform.value {
            joinClauses := joinClauses + [TwitterUserJoin(tableInfo.table)];
          }
        }
        assert selectedFields == fieldsBefore + PlatformColumns(ps[i]);
        assert joinClauses == joinsBefore + PlatformJoinsOf(ps[i], twitterListed);
      }
      assert ps[..|ps|] == ps;
    }

    /** The merge-label loop of add_platform_and_label_query over the label names `ls`. */
    method MergeLabelTables(fields: seq<Field>, joins: seq<JoinClause>, ls: seq<string>)
      returns (selectedFields: seq<Field>, joinClauses: seq<JoinClause>)
      ensures selectedFields == fields + LabelFields(ls)
      ensures joinClauses == joins + LabelJoins(ls)
    {
      selectedFields, joinClauses := fields, joins;
      for i := 0 to |ls|
        invariant selectedFields == fields + LabelFields(ls[..i])
        invariant joinClauses == joins + LabelJoins(ls[..i])
      {
        LabelFieldsStep(fields, ls, i);
        LabelJoinsStep(joins, ls, i);
        var labelName := Lower(ls[i]);
        if labelName in LabelTableMapping {
          var tableInfo := LabelTableMapping[labelName];
          selectedFields := selectedFields + Columns(tableInfo);
          joinClauses := joinClauses + [LabelJoin(tableInfo.table, labelName)];
        }
      }
      assert ls[..|ls|] == ls;
    }

    /** `add_author_query`: appends the author disjunction when an author is set. */
    method AddAuthorQuery(inputQuery: seq<Token>) returns (query: seq<Token>)
      ensures query == inputQuery + AuthorTokens(criteria)
    {
      var c := criteria;
      if Present(c.author) {
        var authorName := c.author.value;
        var platform := c.platform;
        var authorCondition := [Raw(" AND (")];
        // each subcondition as the branch it renders (BranchTokens)
        var subconditions: seq<AuthorBranch> := [];
        if platform.None? || "twitter" in platform.value {
          subconditions := subconditions + [TwitterBranch];
        }
        ghost var twitter := subconditions;
        for i := 0 to |DetailPlatforms|
          invariant subconditions == twitter + DetailBranches(DetailPlatforms[..i], platform)
        {
          DetailBranchesStep(twitter, DetailPlatforms, i, platform);
          var p := DetailPlatforms[i];
          if platform.None? || p in platform.value {
            subconditions := subconditions + [DetailBranch(p)];
          }
        }
        assert DetailPlatforms[..|DetailPlatforms|] == DetailPlatforms;
        assert subconditions == AuthorBranches(platform);
        if subconditions != [] {
          authorCondition := authorCondition + Join([Raw(" OR ")], BranchParts(subconditions, authorName)) + [Raw(")")];
        }
        assert authorCondition == AuthorCondition(subconditions, authorName);
        query := inputQuery + authorCondition;
      } else {
        query := inputQuery;
      }
    }

    /** The WHERE clause `build_base_query` builds: `" WHERE 1=1"`, one test per set criterion, then the author test. */
    method BuildWhereClause() returns (whereClause: seq<Token>)
      ensures whereClause == WhereClause(criteria)
    {
      var c := criteria;
      whereClause := WhereStart;
      whereClause := AddLabelFilter(whereClause, c.labelInclusion, true);
      whereClause := AddLabelFilter(whereClause, c.labelExclusion, false);
      whereClause := AddPlatformFilter(whereClause, c);
      whereClause := AddSubplatformFilter(whereClause, c);
      whereClause := AddStringMatchFilter(whereClause, c);
      whereClause := AddLanguageFilter(whereClause, c);
      whereClause := AddDaterangeFilter(whereClause, c);
      whereClause := AddAuthorQuery(whereClause);
    }

    /** `build_base_query(custom_select)`. */
    method BuildBaseQuery(customSelect: Option<seq<Token>>) returns (fullQuery: seq<Token>)
      ensures fullQuery == BaseQuery(criteria, customSelect)
    {
      var joinClauses, selectedFields := AddPlatformAndLabelQuery();
      var selectClause;
      if customSelect.Some? {
        selectClause := customSelect.value;
      } else {
        selectClause := [Raw("SELECT ")] + Join([Raw(", ")], FieldParts(selectedFields));
      }
      var fromClause := [Raw("FROM content")];
      var whereClause := BuildWhereClause();

      fullQuery := selectClause + [Raw(" ")] + fromClause;
      if joinClauses != [] {
        fullQuery := fullQuery + Join([Raw(" ")], JoinParts(joinClauses));
      }
      fullQuery := fullQuery + whereClause;
      assert fullQuery == Assemble(selectClause, joinClauses, whereClause);
    }

    /** The query `sum_rows(group_by)` sends. */
    method SumRows(groupBy: Arg) returns (query: seq<Token>)
      ensures query == SumRowsQuery(criteria, groupBy)
    {
      if groupBy.Truthy() {
        var cols := groupBy;
        if cols.Str? {
          cols := List([cols.s]);
        }
        var groupByClause := Join([Raw(", ")], seq(|cols.items|, i requires 0 <= i < |cols.items| => [Ident(cols.items[i])]));
        var customSelect := [Raw("SELECT ")] + groupByClause + [Raw(", COUNT(*)")];
        query := BuildBaseQuery(Some(customSelect));
        query := query + [Raw(" GROUP BY ")] + groupByClause;
      } else {
        query := BuildBaseQuery(Some([Raw("SELECT COUNT(*)")]));
      }
    }

    /** The query `sum_per_time_unit(time_unit)` sends. */
    method SumPerTimeUnit(timeUnit: string) returns (query: seq<Token>)
      ensures query == SumPerTimeUnitQuery(criteria, timeUnit)
    {
      var customSelect := [Raw("SELECT " + timeUnit + "(date), COUNT(*)")];
      query := BuildBaseQuery(Some(customSelect));
      query := query + [Raw(" GROUP BY "), Ident(timeUnit), Raw("(date)")];
    }
  }
}
