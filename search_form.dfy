/** The search form: the table of search types, the lookups between an option's label and its value,
    and the URL the form navigates to on submit. */
module SearchForm {
  import opened Common

  /** One entry of the search type selector. */
  datatype SearchOption = SearchOption(caption: string, value: string)

  const Options: seq<SearchOption> := [
    SearchOption("For Posts", "searchPosts"),
    SearchOption("For Profiles", "searchProfiles")]

  /** `getTypeFromLabel`: the value of the option with that label, `None` for any other label. */
  function GetTypeFromLabel(searchLabel: string): (r: Option<string>)
    ensures searchLabel == "For Posts" ==> r == Some("searchPosts")
    ensures searchLabel == "For Profiles" ==> r == Some("searchProfiles")
    ensures searchLabel != "For Posts" && searchLabel != "For Profiles" ==> r == None
  {
    match Find(Options, (o: SearchOption) => o.caption == searchLabel)
    case Some(option) => Some(option.value)
    case None => None
  }

  /** The selector's initial caption: the label of the option whose value is the `type` query
      parameter, or `""` when the parameter is absent, empty or unknown. */
  function InitialType(typeParam: Option<string>): (caption: string)
    ensures typeParam == Some("searchPosts") ==> caption == "For Posts"
    ensures typeParam == Some("searchProfiles") ==> caption == "For Profiles"
    ensures typeParam != Some("searchPosts") && typeParam != Some("searchProfiles") ==> caption == ""
  {
    if !Present(typeParam) then ""
    else
      match Find(Options, (o: SearchOption) => o.value == typeParam.value)
      case Some(option) => if option.caption != "" then option.caption else ""
      case None => ""
  }

  /** Going from a `type` value to its label and back gives the value again, for every value that
      has a label; and a label that resolves to a value is that value's initial label. */
  lemma LabelValueRoundTrip(typeParam: Option<string>, searchLabel: string)
    ensures InitialType(typeParam) != "" ==> GetTypeFromLabel(InitialType(typeParam)) == typeParam
    ensures GetTypeFromLabel(searchLabel).Some? ==> InitialType(GetTypeFromLabel(searchLabel)) == searchLabel
  {
  }

  /** The search page's URL for a search type and a search text, inserted as they are. */
  function SearchUrl(searchType: string, searchText: string): string
  {
    "/search?type=" + searchType + "&text=" + searchText
  }

  /** The submit handler: navigates only when the selected label resolves to a search type, and then
      to `/search?type=<type>&text=<text>`; `None` means no navigation. */
  function SubmitTarget(searchText: string, searchLabel: string): (r: Option<string>)
    ensures r.Some? <==> searchLabel == "For Posts" || searchLabel == "For Profiles"
    ensures searchLabel == "For Posts" ==> r == Some(SearchUrl("searchPosts", searchText))
    ensures searchLabel == "For Profiles" ==> r == Some(SearchUrl("searchProfiles", searchText))
  {
    match GetTypeFromLabel(searchLabel)
    case Some(searchType) =>
      if searchType != "" then Some(SearchUrl(searchType, searchText)) else None
    case None => None
  }
}
