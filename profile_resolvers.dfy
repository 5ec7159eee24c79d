/** The profile service's field resolvers: which of the parent object's fields and the stored profile's
    fields each `Profile` field returns, the full-name privacy rule, the profile query's not-found error
    and the search arguments it forwards. */
module ProfileResolvers {
  import opened Common

  /** A profile document as stored. */
  datatype StoredProfile = StoredProfile(
    id: ObjectId,
    accountId: string,
    avatar: Option<string>,
    description: Option<string>,
    fullName: Option<string>,
    username: Option<string>,
    isFullNameHidden: Option<bool>)

  /** The parent object a `Profile` field resolver receives: a stored document, or a reference from
      another service that carries only some fields. `documentId` is `_id`, `id` the id used to look
      the profile up. */
  datatype ProfileParent = ProfileParent(
    documentId: Option<ObjectId>,
    id: Option<ObjectId>,
    accountId: Option<string>,
    avatar: Option<string>,
    description: Option<string>,
    fullName: Option<string>,
    username: Option<string>,
    isFullNameHidden: Option<bool>)

  /** The stub of the `Account` entity a profile points to. */
  datatype AccountReference = AccountReference(typename: string, id: Option<string>)

  /** A pinned GitHub item. */
  datatype PinnableItem = PinnableItem(githubId: string, name: string, url: string)

  /** The arguments of the `searchProfiles` query. */
  datatype SearchProfilesArgs = SearchProfilesArgs(after: Option<string>, first: Option<int>, text: string)

  /** What `searchProfiles` passes to the profiles data source. */
  datatype ProfileSearch = ProfileSearch(after: Option<string>, first: Option<int>, searchString: string)

  const ProfileNotFoundMessage := "Profile does not exist."

  /** The TypeError thrown when a field of a missing (`null`) lookup result is read. */
  function NullFieldMessage(field: string): string
  {
    "Cannot read property '" + field + "' of null"
  }

  /** `getProfileById(id)`: the stored profile with that id; nothing for a missing id. */
  function ProfileById(store: seq<StoredProfile>, id: Option<ObjectId>): (r: Option<StoredProfile>)
    ensures r.Some? ==> r.value in store && id == Some(r.value.id)
    ensures r.None? <==> id.None? || forall s :: s in store ==> s.id != id.value
  {
    if id.None? then None else Find(store, (s: StoredProfile) => s.id == id.value)
  }

  /** `getProfile({ username })`: the first stored profile with that username. */
  function ProfileByUsername(store: seq<StoredProfile>, username: string): (r: Option<StoredProfile>)
    ensures r.Some? ==> r.value in store && r.value.username == Some(username)
    ensures r.None? <==> forall s :: s in store ==> s.username != Some(username)
  {
    Find(store, (s: StoredProfile) => s.username == Some(username))
  }

  /** `PinnableItem.id` is the item's GitHub id. */
  function PinnableItemId(item: PinnableItem): (r: string)
    ensures r == item.githubId
  {
    item.githubId
  }

  /** `Profile.id` is the document's `_id`. */
  function ProfileId(parent: ProfileParent): (r: Option<ObjectId>)
    ensures r == parent.documentId
  {
    parent.documentId
  }

  /** `Profile.account` is the `Account` entity stub keyed by the profile's account id. */
  function Account(parent: ProfileParent): (r: AccountReference)
    ensures r.typename == "Account" && r.id == parent.accountId
  {
    AccountReference("Account", parent.accountId)
  }

  /** `Profile.username`: the parent's username when it is non-empty, otherwise the stored one, and
      `""` when no stored profile exists. */
  function Username(parent: ProfileParent, store: seq<StoredProfile>): (r: Option<string>)
    ensures Present(parent.username) ==> r == parent.username
    ensures !Present(parent.username) && ProfileById(store, parent.id).None? ==> r == Some("")
    ensures !Present(parent.username) && ProfileById(store, parent.id).Some? ==>
              r == ProfileById(store, parent.id).value.username
  {
    if Present(parent.username) then parent.username
    else
      match ProfileById(store, parent.id)
      case Some(result) => result.username
      case None => Some("")
  }

  /** `Profile.avatar`: the parent's avatar when it is non-empty, otherwise the stored one; reading it
      from a missing stored profile throws. */
  function Avatar(parent: ProfileParent, store: seq<StoredProfile>): (r: Result<Option<string>>)
    ensures Present(parent.avatar) ==> r == Success(parent.avatar)
    ensures !Present(parent.avatar) ==>
              match ProfileById(store, parent.id)
              case None => r == Failure(NullFieldMessage("avatar"))
              case Some(s) => r == Success(s.avatar)
  {
    if Present(parent.avatar) then Success(parent.avatar)
    else
      match ProfileById(store, parent.id)
      case Some(result) => Success(result.avatar)
      case None => Failure(NullFieldMessage("avatar"))
  }

  /** `Profile.description`: the parent's description when it is non-empty, otherwise the stored one. */
  function Description(parent: ProfileParent, store: seq<StoredProfile>): (r: Result<Option<string>>)
    ensures Present(parent.description) ==> r == Success(parent.description)
    ensures !Present(parent.description) ==>
              match ProfileById(store, parent.id)
              case None => r == Failure(NullFieldMessage("description"))
              case Some(s) => r == Success(s.description)
  {
    if Present(parent.description) then Success(parent.description)
    else
      match ProfileById(store, parent.id)
      case Some(result) => Success(result.description)
      case None => Failure(NullFieldMessage("description"))
  }

  /** `Profile.fullName`: the stored profile is always read first (so a missing one throws); the name
      is `""` when the parent or the stored profile hides it, and otherwise the parent's name when it
      is non-empty, else the stored one. */
  function FullName(parent: ProfileParent, store: seq<StoredProfile>): (r: Result<Option<string>>)
    ensures r.Failure? <==> ProfileById(store, parent.id).None?
    ensures r.Failure? ==> r.error == NullFieldMessage("isFullNameHidden")
    ensures r.Success? && (IsTrue(parent.isFullNameHidden) || IsTrue(ProfileById(store, parent.id).value.isFullNameHidden)) ==>
              r.value == Some("")
    ensures r.Success? && !IsTrue(parent.isFullNameHidden) && !IsTrue(ProfileById(store, parent.id).value.isFullNameHidden) ==>
              r.value == if Present(parent.fullName) then parent.fullName else ProfileById(store, parent.id).value.fullName
  {
    match ProfileById(store, parent.id)
    case None => Failure(NullFieldMessage("isFullNameHidden"))
    case Some(result) =>
      if IsTrue(parent.isFullNameHidden) || IsTrue(result.isFullNameHidden) then Success(Some(""))
      else if Present(parent.fullName) then Success(parent.fullName)
      else Success(result.fullName)
  }

  /** A profile stored as hidden never shows a non-empty full name, whatever the parent carries. */
  lemma HiddenFullNameNeverShown(parent: ProfileParent, store: seq<StoredProfile>, s: StoredProfile)
    requires s in store && parent.id == Some(s.id) && IsTrue(s.isFullNameHidden)
    requires forall t :: t in store && t.id == s.id ==> t == s
    ensures FullName(parent, store) == Success(Some(""))
  {
  }

  /** `Query.profile`: the profile with the given username, or the "Profile does not exist." error. */
  function QueryProfile(store: seq<StoredProfile>, username: string): (r: Result<StoredProfile>)
    ensures r.Failure? <==> forall s :: s in store ==> s.username != Some(username)
    ensures r.Failure? ==> r.error == ProfileNotFoundMessage
    ensures r.Success? ==> r.value in store && r.value.username == Some(username)
  {
    match ProfileByUsername(store, username)
    case None => Failure(ProfileNotFoundMessage)
    case Some(profile) => Success(profile)
  }

  /** `Query.searchProfiles`: forwards `after` and `first` unchanged and the query text as the
      search string. */
  function SearchProfiles(args: SearchProfilesArgs): (r: ProfileSearch)
    ensures r.after == args.after && r.first == args.first && r.searchString == args.text
  {
    ProfileSearch(args.after, args.first, args.text)
  }
}
