/**
 * The criteria record of `NEOVEXQueryWrapper` (src/query_neovex.py) and its
 * validity predicate `check_query`.
 *
 * The source keeps the criteria in an untyped dictionary.  The model gives each
 * key the shapes the source actually stores in it: the label lists, the
 * subplatform and `group_by` may be `None`, a bare string or a list of strings
 * (`Arg`); the platform is always `None` or a list, because `set_platform`
 * wraps a bare string; `case_sensitivity` is a Python bool or some other object,
 * since `check_query` tests its type.
 */
module Criteria {

  datatype Option<T> = None | Some(value: T)

  /** A criteria value as a caller passes it: nothing, a bare string, or a list of strings. */
  datatype Arg = Absent | Str(s: string) | List(items: seq<string>)
  {
    /** Python truthiness: `None`, `""` and `[]` are false. */
    predicate Truthy()
    {
      match this
      case Absent => false
      case Str(s) => s != ""
      case List(xs) => xs != []
    }

    /** What `for x in value` and `value[i]` see: a list's items, a string's one-character strings. */
    function Elements(): (r: seq<string>)
      ensures Str? ==> |r| == |s| && forall i :: 0 <= i < |s| ==> r[i] == [s[i]]
      ensures List? ==> r == items
      ensures Truthy() <==> r != []
    {
      match this
      case Absent => []
      case Str(s) => seq(|s|, i requires 0 <= i < |s| => [s[i]])
      case List(xs) => xs
    }
  }

  /** `case_sensitivity` as stored: a Python bool, or another object known only by its truthiness. */
  datatype Flag = Bool(b: bool) | Other(truthy: bool)
  {
    predicate Truthy()
    {
      match this
      case Bool(b) => b
      case Other(t) => t
    }
  }

  /** Truthiness of an optional string criterion (`string_match`, `language`, `author`). */
  predicate Present(o: Option<string>)
  {
    o.Some? && o.value != ""
  }

  /** Truthiness of the stored platform list. */
  predicate PlatformGiven(p: Option<seq<string>>)
  {
    p.Some? && p.value != []
  }

  /** The dictionary `self.criteria`, one field per key. */
  datatype Criteria = Criteria(
    labelInclusion: Arg,
    labelExclusion: Arg,
    platform: Option<seq<string>>,
    subplatform: Arg,
    searchText: string,
    caseSensitivity: Flag,
    stringMatch: Option<string>,
    language: Option<string>,
    daterange: Option<(string, string)>,
    author: Option<string>,
    mergePlatformData: bool,
    mergeLabelData: bool)

  /** What `set_label_inclusion` and `set_label_exclusion` store: a bare string becomes a one-element list. */
  function WrapString(a: Arg): (r: Arg)
    ensures !r.Str?
    ensures a.Str? ==> r.Elements() == [a.s]
    ensures !a.Str? ==> r == a
  {
    if a.Str? then List([a.s]) else a
  }

  /** What `set_platform` stores: `None` stays `None`, a bare string becomes a one-element list. */
  function PlatformList(a: Arg): (r: Option<seq<string>>)
    ensures r.None? <==> a.Absent?
    ensures a.Str? ==> r == Some([a.s])
    ensures a.List? ==> r == Some(a.items)
  {
    match a
    case Absent => None
    case Str(s) => Some([s])
    case List(xs) => Some(xs)
  }

  const AllowedPlatforms: seq<string> := ["alt_news", "legacy_news", "4chan", "reddit", "twitter"]
  const SearchScopes: seq<string> := ["all", "text", "title"]

  /** A label criterion passes when it is unset, or a list naming "liwc" or "consp" (other names are tolerated). */
  predicate LabelsAccepted(a: Arg)
  {
    a.Truthy() ==> a.List? && ("liwc" in a.items || "consp" in a.items)
  }

  /** The condition under which `check_query` raises no assertion error. */
  predicate CheckPasses(c: Criteria)
  {
    && (c.platform.Some? ==> forall p :: p in c.platform.value ==> p in AllowedPlatforms)
    && LabelsAccepted(c.labelExclusion)
    && LabelsAccepted(c.labelInclusion)
    && (Present(c.stringMatch) ==> c.searchText in SearchScopes)
    && c.caseSensitivity.Bool?
  }

  /**
   * `check_query` rejects what the constructor accepts without complaint: a
   * non-empty label string given to the constructor is stored unwrapped and
   * fails the list-type assertion.  The same string through the setter is
   * wrapped, and then passes exactly when it is "liwc" or "consp".
   */
  lemma BareLabelStringFailsCheck(c: Criteria)
    requires c.labelInclusion.Str? && c.labelInclusion.s != ""
    ensures !CheckPasses(c)
    ensures LabelsAccepted(WrapString(c.labelInclusion)) <==> c.labelInclusion.s in {"liwc", "consp"}
  {
  }
}
