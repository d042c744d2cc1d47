# NEOVEX query composer and file helpers, modelled in Dafny

This project models two parts of the NEOVEX toolkit.

- **`NEOVEXQueryWrapper`** (src/query_neovex.py). It holds a dictionary of
  search criteria, which callers fill through the constructor and the setters.
  `check_query` validates the criteria. `build_base_query` turns them into a
  psycopg2 `sql.Composed` query over the `content` table: optional LEFT JOINs
  to the platform and label tables, then a WHERE clause with one test per
  criterion and an author disjunction. `sum_rows` and `sum_per_time_unit`
  wrap that query in a count.
- **The pure helpers of src/file_utils.py.** These are the extension rule,
  the valid-path filter, the reader dispatch of `get_df` with its size gates,
  and the column-name cleaning of `clean_table_cols`.

A psycopg2 composed query is modelled as the flat sequence of its leaves
(`Sql.Token`):

- `Raw` for `sql.SQL` text;
- `Ident` for `sql.Identifier`;
- `Lit` for `sql.Literal`.

`sql.SQL(sep).join(parts)` is `Sql.Join`. `SQL("a {} b").format(x)` is the
text pieces around `x`. Rendering concatenates the leaves, so flattening loses
no text.

The modules:

| file | module | contents |
|---|---|---|
| sql.dfy | `Sql` | tokens, `Join`, and the raw-vocabulary predicate `RawFrom` |
| criteria.dfy | `Criteria` | the criteria record, Python truthiness, `check_query` as a predicate |
| builder.dfy | `QueryBuilder` | the table mappings and every query fragment as a function, down to the full query |
| wrapper.dfy | `QueryNeovex` | the class `QueryWrapper`: a constructor and setters over a `criteria` field, and builders that grow the clauses step by step as the source does, each proved equal to its `QueryBuilder` function |
| properties.dfy | `QueryProperties` | what the queries look like: order of tests, select lists, joins, author branches, aggregate shapes, and the source's quirks |
| safety.dfy | `QuerySafety` | every raw SQL text that can reach a query comes from a fixed vocabulary, and `sum_per_time_unit`'s `time_unit` is the one caller string pasted into raw SQL |
| file_utils.dfy | `FileUtils` | extension, path filter, dispatch, size gates, column cleaning (the column loop is a method over an array) |

The source has several quirks. The lemmas record them as they are and do not
correct them:

- The constructor ignores its `search_text` argument and always stores `"all"`.
- The constructor initialises `merge_label_data` from `merge_platform_data`.
- A bare label string passed to the constructor is stored unwrapped, so
  `check_query` rejects it, whatever the non-empty string (an empty one is
  falsy, so the label test is skipped). Passed through the setter,
  the string is wrapped into a list and accepted when it is "liwc" or
  "consp", the two names the check asks for.
- A bare subplatform string is iterated character by character.
- An author whose platform list matches none of the five author branches
  leaves `" AND ("` open at the end of the WHERE clause.
- `time_unit` is pasted into raw SQL.
- `get_df` dispatches a dotless name such as `csv` that the path filter
  would have dropped.

Three behaviours of the code deserve a note:

- `check_query` does not check the date range: a start after the end passes
  (`QueryProperties.DaterangeUnchecked`).
- `sum_per_time_unit` does not check `time_unit` against any list of units.
- The size gates are 500000 KB for CSV and 100000 KB for pickles
  (src/file_utils.py:40 and :56).

## Model

| member | source | states |
|---|---|---|
| Sql.Join | src/query_neovex.py:254 | `sql.SQL(sep).join(parts)`: the parts in order with the separator between neighbours, nothing for no parts |
| Criteria.LabelsAccepted | src/query_neovex.py:230-236 | a label criterion passes when it is falsy, or a list containing "liwc" or "consp" |
| Criteria.CheckPasses | src/query_neovex.py:217-241 | the conjunction of every assertion of `check_query`: allowed platforms, accepted label lists, a known scope when a match string is set, a bool case flag |
| QueryBuilder.SelectedFields | src/query_neovex.py:336-385 | `content.*`, then the merged platform columns, then the merged label columns |
| QueryBuilder.JoinClauses | src/query_neovex.py:339-385 | the merged platform joins, then the merged label joins |
| QueryBuilder.WhereClause | src/query_neovex.py:258-310 | `WHERE 1=1`, then the inclusion, exclusion, platform, subplatform, string-match, language, date and author tests, in that order |
| QueryBuilder.FieldTokens | src/query_neovex.py:349 | a selected column renders as `{table}.{field}`, both as identifiers; `content.*` is raw |
| QueryBuilder.JoinTokens | src/query_neovex.py:352-384 | the three join texts: the platform join on `.id = content.id`, the twitter_user join on `.author_id`, and the label join on `content.label_` with the label spliced in as raw text |
| QueryBuilder.DetailTable | src/query_neovex.py:409 | the author branch for 4chan looks in `fourchan`; every other platform in its own table |
| QueryBuilder.BranchTokens | src/query_neovex.py:398-420 | the twitter branch quotes the author once; a detail branch quotes the platform, names its table as an identifier and quotes the author |
| QueryBuilder.AuthorText | src/query_neovex.py:397-420 | the raw text of the triple-quoted author subqueries, line by line with their indentation |
| QueryBuilder.AuthorBranches | src/query_neovex.py:397-420 | the twitter branch, then alt_news, legacy_news, 4chan and reddit, each when its platform is selected or the platform is unset |
| QueryBuilder.AuthorCondition | src/query_neovex.py:394-425 | `" AND ("`, then the branches joined by `" OR "` and `")"` only when there is a branch |
| QueryBuilder.BaseQuery | src/query_neovex.py:243-318 | the select clause (custom or default), then `" "`, `FROM content`, the joins joined by `" "`, and the WHERE clause |
| QueryBuilder.SumRowsQuery | src/query_neovex.py:430-443 | a grouped count over the base query when `group_by` is set, a plain `SELECT COUNT(*)` otherwise |
| QueryBuilder.SumPerTimeUnitQuery | src/query_neovex.py:446-456 | the count per `time_unit(date)` over the base query, grouped by the same unit |
| FileUtils.Split | src/file_utils.py:10 | `str.split(".")`: the pieces between the dots, built one character at a time |
| FileUtils.IsValidPath | src/file_utils.py:16 | no `$RECYCLE.BIN`, a dot somewhere, and an allowed extension |
| FileUtils.Dispatch | src/file_utils.py:19-31 | the `get_df` branch chosen by the text after the last dot |
| FileUtils.KeepChar | src/file_utils.py:76 | the characters the class `[^0-9a-zA-Z.,-/_ ]` keeps, with `,-/` read as the range from `,` to `/` |
| Sql.JoinRawFrom | src/query_neovex.py:314 | joining parts whose raw text lies in a vocabulary, with a separator from it, yields raw text only from that vocabulary |
| Sql.JoinSingletons | src/query_neovex.py:279 | joining one-token parts puts part k at position 2k and the separator at every odd position, so the list has 2n-1 tokens |
| Sql.JoinStartsWithFirst | src/query_neovex.py:254 | a join begins with its first part |
| Criteria.Arg.Elements | src/query_neovex.py:264 | iterating a string yields its characters one by one; iterating a list yields its items; the value is truthy exactly when there is something to iterate |
| Criteria.WrapString | src/query_neovex.py:65-73 | a bare string becomes a one-element list; anything else is stored unchanged |
| Criteria.PlatformList | src/query_neovex.py:85-94 | `None` stays unset; a bare string becomes a one-element list; a list is stored as given |
| Criteria.BareLabelStringFailsCheck | src/query_neovex.py:48 | a non-empty label string stored unwrapped by the constructor fails the check; the same string wrapped by the setter passes the label test exactly when it is liwc or consp |
| QueryBuilder.Lower | src/query_neovex.py:342 | lower-casing keeps the length and maps exactly the ASCII capitals to small letters |
| QueryBuilder.PlatformFieldsStep | src/query_neovex.py:341-349 | one pass of the platform loop appends that platform's columns, or nothing for an unmapped name |
| QueryBuilder.PlatformJoinsStep | src/query_neovex.py:350-364 | one pass of the platform loop appends its join, and a twitter_user join when twitter is listed |
| QueryBuilder.LabelFieldsStep | src/query_neovex.py:368-377 | one pass of the label loop appends that label table's columns, or nothing for an unmapped label |
| QueryBuilder.LabelJoinsStep | src/query_neovex.py:378-385 | one pass of the label loop appends that label table's join |
| QueryBuilder.LabelsStep | src/query_neovex.py:264-266 | one pass of a label loop appends one test for that label after the clause built so far |
| QueryBuilder.DetailBranchesStep | src/query_neovex.py:407-420 | one pass of the author loop appends a branch exactly when the platform is selected |
| QueryBuilder.Spaces | src/query_neovex.py:398-404 | the indentation of the author subqueries is exactly n spaces |
| QueryNeovex.AddLabelFilter | src/query_neovex.py:260-273 | the label tests appended are those of every label in order, and nothing when the labels are unset |
| QueryNeovex.AddPlatformFilter | src/query_neovex.py:274-280 | the platform test appended is `= p` for one platform and `IN (...)` for several |
| QueryNeovex.AddSubplatformFilter | src/query_neovex.py:281-287 | the subplatform test appended is `=` for one element and `IN (...)` for several, a bare string counted by characters |
| QueryNeovex.AddStringMatchFilter | src/query_neovex.py:288-303 | the string-match test appended is the one for the search scope, with LIKE or ILIKE by case sensitivity |
| QueryNeovex.AddLanguageFilter | src/query_neovex.py:304-305 | a language test is appended when a language is set |
| QueryNeovex.AddDaterangeFilter | src/query_neovex.py:306-308 | a BETWEEN test over the two dates is appended when a range is set |
| QueryNeovex.QueryWrapper.constructor | src/query_neovex.py:14-63 | the connection data is stored; the scope is always "all"; `merge_label_data` is copied from `merge_platform_data`; the labels are stored raw; the platform and subplatform go through their setters |
| QueryNeovex.QueryWrapper.SetLabelInclusion | src/query_neovex.py:65-73 | only the inclusion labels change, with a bare string wrapped into a list |
| QueryNeovex.QueryWrapper.SetLabelExclusion | src/query_neovex.py:75-83 | only the exclusion labels change, with a bare string wrapped into a list |
| QueryNeovex.QueryWrapper.SetPlatform | src/query_neovex.py:85-94 | only the platform changes, with a bare string wrapped into a list |
| QueryNeovex.QueryWrapper.SetSubplatform | src/query_neovex.py:96-102 | only the subplatform changes, stored as given |
| QueryNeovex.QueryWrapper.SetSearchText | src/query_neovex.py:104-111 | only the search scope changes |
| QueryNeovex.QueryWrapper.SetCaseSensitivity | src/query_neovex.py:113-119 | only the case-sensitivity flag changes |
| QueryNeovex.QueryWrapper.SetStringMatch | src/query_neovex.py:121-127 | only the match string changes |
| QueryNeovex.QueryWrapper.SetLanguage | src/query_neovex.py:129-135 | only the language changes |
| QueryNeovex.QueryWrapper.SetDaterange | src/query_neovex.py:137-144 | only the date range changes, to the given pair |
| QueryNeovex.QueryWrapper.SetAuthor | src/query_neovex.py:146-152 | only the author changes |
| QueryNeovex.QueryWrapper.SetMergePlatformData | src/query_neovex.py:154-161 | only the platform-merge flag changes |
| QueryNeovex.QueryWrapper.SetMergeLabelData | src/query_neovex.py:163-170 | only the label-merge flag changes |
| QueryNeovex.QueryWrapper.CheckQuery | src/query_neovex.py:217-241 | it passes exactly when every platform is allowed, every set label criterion is a list naming liwc or consp, a string match has a known scope, and the case flag is a bool |
| QueryNeovex.QueryWrapper.AddPlatformAndLabelQuery | src/query_neovex.py:320-387 | the joins and select fields are exactly those of the merged platform tables, then those of the merged label tables |
| QueryNeovex.QueryWrapper.MergePlatformTables | src/query_neovex.py:339-364 | the platform loop appends each mapped platform's columns and join, plus a twitter_user join per platform when twitter is listed |
| QueryNeovex.QueryWrapper.MergeLabelTables | src/query_neovex.py:366-385 | the label loop appends each mapped label table's columns and join |
| QueryNeovex.QueryWrapper.AddAuthorQuery | src/query_neovex.py:389-428 | the author condition is appended when an author is set, and the input comes back unchanged otherwise |
| QueryNeovex.QueryWrapper.BuildWhereClause | src/query_neovex.py:258-310 | the WHERE clause is built from the criteria in the source's order |
| QueryNeovex.QueryWrapper.BuildBaseQuery | src/query_neovex.py:243-318 | the full query is the select clause, `FROM content`, the joins and the WHERE clause |
| QueryNeovex.QueryWrapper.SumRows | src/query_neovex.py:430-443 | the query sent is the count query, grouped when `group_by` is set |
| QueryNeovex.QueryWrapper.SumPerTimeUnit | src/query_neovex.py:446-456 | the query sent counts rows per time unit |
| QueryProperties.LabelsTokensInOrder | src/query_neovex.py:264-273 | there are three tokens per label, and the k-th triple tests the k-th label |
| QueryProperties.LiteralListInOrder | src/query_neovex.py:278-279 | the `IN` list holds each value as a literal, in order, separated by commas |
| QueryProperties.PlatformTestShape | src/query_neovex.py:274-280 | one platform gives `platform = p`; several give `platform IN (p1,...,pn)` with every platform in order |
| QueryProperties.SubplatformTestShape | src/query_neovex.py:281-287 | one element gives `subplatform = v`; several give `subplatform IN (v1,...,vn)` with every element in order |
| QueryProperties.SubplatformStringSplits | src/query_neovex.py:281-287 | a bare subplatform string of several characters becomes an `IN` list of its single characters |
| QueryProperties.SingleLabelTests | src/query_neovex.py:260-273 | one inclusion label and one exclusion label give exactly `IS NOT NULL` and `IS NULL` tests on `label_<name>` |
| QueryProperties.WhereClauseBareIff | src/query_neovex.py:258-310 | the WHERE clause is bare `1=1` if and only if no criterion contributes a test |
| QueryProperties.AllScopeTests | src/query_neovex.py:291-296 | scope "all" tests text, text_prep and title, OR-ed, each against the pattern |
| QueryProperties.TitleScopeTests | src/query_neovex.py:297-298 | scope "title" tests only title |
| QueryProperties.TextScopeTests | src/query_neovex.py:299-303 | scope "text" tests text and text_prep, OR-ed |
| QueryProperties.MatchTestsEachColumn | src/query_neovex.py:288-303 | each scope tests each of its columns once with the operator and the pattern, in parentheses unless it is one column |
| QueryProperties.StringMatchTest | src/query_neovex.py:288-303 | an unknown scope adds nothing; a known one tests every column with `%s%` and LIKE or ILIKE by the case flag |
| QueryProperties.KeepFive | src/query_neovex.py:397-420 | the five author branches are kept one by one in order |
| QueryProperties.DetailBranchesFour | src/query_neovex.py:407-420 | the four-platform author loop is four conditional branches in order |
| QueryProperties.AuthorBranchesUnrolled | src/query_neovex.py:397-420 | the author branches are twitter, alt_news, legacy_news, 4chan and reddit, each present when its platform is selected |
| QueryProperties.AuthorBranchesSelected | src/query_neovex.py:397-420 | a branch appears if and only if its platform is selected (or the platform is unset), in the fixed order |
| QueryProperties.AllAuthorBranchesWithoutPlatform | src/query_neovex.py:397 | with no platform set, all five author branches appear |
| QueryProperties.AuthorParenthesisLeftOpen | src/query_neovex.py:422-425 | an author whose platforms select no branch leaves `" AND ("` with no closing parenthesis at the end of the WHERE clause |
| QueryProperties.SelectStartsWithContentStar | src/query_neovex.py:336 | the select list always starts with `content.*` |
| QueryProperties.ColumnsOfEntry | src/query_neovex.py:321-334 | every column of a table entry names that table and one of its fields |
| QueryProperties.PlatformFieldsMapped | src/query_neovex.py:341-349 | every merged platform column belongs to a platform-table entry |
| QueryProperties.LabelFieldsMapped | src/query_neovex.py:368-377 | every merged label column belongs to a label-table entry |
| QueryProperties.SelectedFieldsMapped | src/query_neovex.py:336-385 | every select field after `content.*` is a mapped platform or label column |
| QueryProperties.LowerKeepsLowercase | src/query_neovex.py:342 | lower-casing leaves a name with no capitals unchanged |
| QueryProperties.SinglePlatformMerge | src/query_neovex.py:339-364 | merging one platform selects exactly its mapped columns after `content.*` and adds its joins, with the twitter_user join only when that platform is twitter |
| QueryProperties.MergeTwitterAlone | src/query_neovex.py:339-364 | merging twitter alone selects the twitter columns and joins the twitter table on `content.id`, then twitter_user |
| QueryProperties.UnmappedNamesSkipped | src/query_neovex.py:342-343 | a name missing from a mapping adds neither columns nor joins |
| QueryProperties.TwitterUserJoinPerPlatform | src/query_neovex.py:359-364 | with twitter listed, every platform join is followed by a twitter_user join on that platform's table |
| QueryProperties.LabelJoinsNamed | src/query_neovex.py:378-385 | every label join names a mapped label |
| QueryProperties.CustomSelectReplacesOnlySelect | src/query_neovex.py:251-254 | a custom select replaces the default select list and leaves the rest of the query unchanged |
| QueryProperties.IdentListInOrder | src/query_neovex.py:435 | the GROUP BY list holds every column as an identifier, in order, separated by `", "` |
| QueryProperties.SumRowsShape | src/query_neovex.py:430-443 | with `group_by` set, the query selects and groups by the same identifier list (a bare string is one column); otherwise it is `SELECT COUNT(*)` over the same tail |
| QueryProperties.SumPerTimeUnitShape | src/query_neovex.py:446-456 | the time unit is raw text in the select and an identifier in the GROUP BY |
| QueryProperties.DaterangeUnchecked | src/query_neovex.py:306-308 | the check does not depend on the date range, and any pair is emitted as given |
| QueryProperties.DefaultQuery | src/query_neovex.py:47-60 | criteria at their defaults pass the check and select every content row with a bare WHERE clause |
| QuerySafety.DefaultSelectFixed | src/query_neovex.py:254 | the default select uses only fixed raw text |
| QuerySafety.PlatformJoinsUnlabelled | src/query_neovex.py:350-364 | platform joins are never label joins |
| QuerySafety.JoinTokensFixed | src/query_neovex.py:352-384 | a join uses only fixed raw text, including the mapped label name it splices in |
| QuerySafety.JoinsFixed | src/query_neovex.py:313-314 | the join section uses only fixed raw text |
| QuerySafety.LabelsFixed | src/query_neovex.py:260-273 | label tests use only fixed raw text |
| QuerySafety.LiteralListFixed | src/query_neovex.py:278-286 | the `IN` lists use only fixed raw text |
| QuerySafety.FiltersFixed | src/query_neovex.py:258-308 | the label, platform, subplatform, language and date tests use only fixed raw text |
| QuerySafety.StringMatchFixed | src/query_neovex.py:288-303 | the string-match test uses only fixed raw text for its operator |
| QuerySafety.BranchFixed | src/query_neovex.py:397-420 | each author branch uses only fixed raw text |
| QuerySafety.AuthorConditionFixed | src/query_neovex.py:394-424 | the author condition uses only fixed raw text |
| QuerySafety.AuthorFixed | src/query_neovex.py:389-428 | the appended author section uses only fixed raw text |
| Sql.ValuesFromConcat | src/query_neovex.py:424-428 | concatenating two token lists keeps their literals and identifiers inside the given sets |
| Sql.JoinValuesFrom | src/query_neovex.py:424 | joining keeps literals and identifiers inside the sets that the separator and the parts draw on |
| QuerySafety.BranchValues | src/query_neovex.py:397-420 | a branch of the author loop has only the author and its platform as literals, and only alt_news, legacy_news, fourchan or reddit as identifier |
| QuerySafety.AuthorConditionValues | src/query_neovex.py:394-425 | an author condition over loop branches draws its literals from the author and the four detail platforms and its identifiers from the four detail tables |
| QuerySafety.AuthorEntersAsLiteral | src/query_neovex.py:389-428 | with an author set, the author value enters only as `sql.Literal`: every literal is the author or a detail platform, every identifier a detail table, every raw text fixed |
| QuerySafety.WhereClauseFixed | src/query_neovex.py:258-310 | the whole WHERE clause uses only fixed raw text; every caller value is a literal or an identifier, the language being the one literal after `" AND language = "` |
| QuerySafety.QueryTailFixed | src/query_neovex.py:312-316 | everything after the select clause uses only fixed raw text |
| QuerySafety.BaseQueryFixed | src/query_neovex.py:243-318 | the base query's raw text is fixed, apart from what a custom select brings |
| QuerySafety.IdentListFixed | src/query_neovex.py:435 | the GROUP BY list's only raw text is `", "` |
| QuerySafety.SumRowsFixed | src/query_neovex.py:430-443 | every raw text in a `sum_rows` query is fixed |
| QuerySafety.TimeUnitIsTheOnlyRawInput | src/query_neovex.py:453-455 | in `sum_per_time_unit`, the caller's time unit sits verbatim inside the first raw token, and every other raw text is fixed |
| FileUtils.Filter | src/file_utils.py:16 | the filter keeps exactly the elements that satisfy the test |
| FileUtils.FilterKeepsOrder | src/file_utils.py:16 | the filter keeps the elements in their original order |
| FileUtils.FilterCounts | src/file_utils.py:16 | a kept element keeps all its occurrences; a dropped one keeps none |
| FileUtils.FilterFixed | src/file_utils.py:16 | the filter changes nothing if and only if every element passes |
| FileUtils.FilterIdempotent | src/file_utils.py:16 | filtering twice is filtering once |
| FileUtils.Extension | src/file_utils.py:9-11 | the extension is the dot-free suffix after the last dot, or the whole name when there is no dot |
| FileUtils.ExtensionIsLastPiece | src/file_utils.py:10 | the extension is the last piece of `split(".")` |
| FileUtils.SplitPieces | src/file_utils.py:10 | `split(".")` yields dot-free pieces, one more than the number of dots |
| FileUtils.ValidFilepaths | src/file_utils.py:13-17 | a path is kept if and only if it avoids `$RECYCLE.BIN`, has a dot, and has an allowed extension |
| FileUtils.ValidFilepathsOrder | src/file_utils.py:16 | the valid paths keep the glob's order, and nothing is dropped when every path is valid |
| FileUtils.RecycleBinDropped | src/file_utils.py:16 | a path inside `$RECYCLE.BIN` is never valid |
| FileUtils.DotlessNameDropped | src/file_utils.py:16 | the filter rejects a name with no dot even when the name is an allowed extension |
| FileUtils.DispatchType | src/file_utils.py:19-31 | a reader is chosen exactly for the four allowed types, each its own reader; any other type raises the unsupported-filetype error |
| FileUtils.ValidPathsDispatch | src/file_utils.py:13-31 | every path the filter keeps has a reader, the one for its extension |
| FileUtils.DispatchIgnoresDot | src/file_utils.py:19-31 | `get_df` sends a dotless `csv` to the CSV reader, though the filter drops it |
| FileUtils.FileSizeKB | src/file_utils.py:69-70 | the size is the byte count divided by 1000 and truncated |
| FileUtils.SizeGatesInBytes | src/file_utils.py:38-61 | CSV files are read below 500000000 bytes; pickles below 100001000 bytes |
| FileUtils.ReadOutcome | src/file_utils.py:38-61 | a reader that returns a frame is the reader chosen |
| FileUtils.GetDf | src/file_utils.py:19-31 | `get_df` fails exactly when the dispatch fails |
| FileUtils.ReadOutcomeNoFrame | src/file_utils.py:38-61 | nothing is returned exactly for a CSV or pickle over its size gate |
| FileUtils.CleanName | src/file_utils.py:76 | the cleaned name is no longer than the original and holds only kept characters |
| FileUtils.CleanNameFilters | src/file_utils.py:76 | cleaning keeps every kept character, in order and count, removes all others, changes a clean name not at all, and is idempotent |
| FileUtils.ByteOrderMarkRemoved | src/file_utils.py:73-76 | a Latin-1 byte order mark in front of a name is removed |
| FileUtils.Renamed | src/file_utils.py:75-77 | a column is renamed when `check_string` is off or its dtype is object, and keeps its dtype |
| FileUtils.CleanTableCols | src/file_utils.py:72-78 | each column of the frame becomes its renamed self, in place |
| FileUtils.RenamedNames | src/file_utils.py:75-77 | a renamed column holds only kept characters, any other column is untouched, and renaming twice is renaming once |

## Left out

- `query_db` and `execute_query` (src/query_neovex.py:181-214) are left out. They connect to the database and post-process the result frame; the aggregate methods return the query they would send.
- `get_criteria` (src/query_neovex.py:172-178) is left out. It only prints the criteria.
- `get_config_dict` and `get_query_wrapper` (src/query_neovex.py:458-492) are left out. They read a configuration file and pass its values to the constructor.
- psycopg2's quoting of identifiers and literals and its rendering to a string are left out. A literal or an identifier is kept as the caller's string.
- The connection data is stored by the constructor but never used here.
- Python values of types other than None, strings and lists of strings are left out: numbers, tuples other than the date range, and label lists of non-strings.
- A custom select in `build_base_query` is always taken when given. psycopg2 composed objects are always truthy, so this matches the source.
- QueryBuilder.Lower: lower-cases ASCII capitals only, because Python's full Unicode case mapping is not modelled.
- `build_base_query` appears as `BuildWhereClause` plus one helper method per criterion. Their order and contents are the source's.
- File I/O is left out: `glob`, `open`, `pickle.load`, `pd.read_csv`, `pd.read_excel`, `pd.read_json`, `os.path.getsize`. The file size enters as a parameter in bytes; the readers are named, not run.
- `get_encoding` and `add_to_log` are left out. They only touch files.
- The two messages `get_csv_df` prints are not modelled: the read error (src/file_utils.py:46) and the too-big notice (:48). Printing has no effect on the result, which is nothing in both cases.
- FileUtils.ReadOutcome: does not model `get_csv_df`'s exception handler, because it catches errors only a real read can raise, and reading is left out.
- FileUtils.FileSizeKB: integer division of a byte count stands for `int(size/1000)`. The two agree for every size a file can have below 2^53 bytes; floating point is not modelled.
- FileUtils.CleanTableCols: renames position by position. pandas' `rename` renames every column carrying the same name, and a later duplicate name then sees the renamed frame; duplicate column names are not modelled.
- The unused `unwanted_str` local of `clean_table_cols` has no effect. `ByteOrderMarkRemoved` shows that the pattern already strips those characters.
