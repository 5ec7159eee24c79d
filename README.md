# Squeaken content, account and profile rules in Dafny

This project models the decision logic of the Squeaken social-content backend and of two of its web
forms:

- **Profile editing form** (`EditProfileForm`). It covers the username, description and avatar
  validators, the duplicate-username error message, and the update object the form submits.
- **Content data source** (`ContentDataSource`). It covers the sort document built from the
  `orderBy` enum and the MongoDB filters for the post and reply connections. It also covers the
  creation and deletion of posts and replies. The three collections are maps in the class
  `ContentStore`, and its methods update them.
- **Accounts data source** (`AccountsDataSource`). It covers the defaults of a new account, the
  blocked and moderator toggles, and the argument rules of an email or password update. It also
  covers the Lucene query of the batch loader and how its results are realigned to the requested
  ids. The identity provider's user store is a map in the class `AccountStore`.
- **Profile resolvers** (`ProfileResolvers`). Each `Profile` field comes either from the parent
  object or from the stored profile. The module also covers the full-name privacy rule, the
  profile query's not-found error and the argument mapping of the profile search.
- **Search form** (`SearchForm`). It covers the table of search types, the lookups between labels
  and values, and the URL the form navigates to.

`Common` holds the shared vocabulary. `Option` stands for `undefined`/`null` and `Result` for an
operation that can throw. `Present` is JavaScript truthiness of an optional string, where `""` is
falsy. `Find` / `FindIndex` model `Array.prototype.find` / `findIndex`.

The pagination engine (`server/src/lib/Pagination.js`) is not part of this model. Each connection
query returns the `QueryArgs` it hands to the engine. Its edges and page info come from a `Pager`,
a pair of arbitrary functions of those arguments, so no cursor semantics are assumed.

## Model

| member | source | states |
|---|---|---|
| `EditProfileForm.MatchesUsernamePattern` | client/src/components/Forms/EditProfileForm/index.tsx:40 | the regular expression `^[A-Za-z\d_]*$` matches exactly when every character is an ASCII letter, digit or underscore |
| `EditProfileForm.ValidateUsername` | client/src/components/Forms/EditProfileForm/index.tsx:39-44 | accepted exactly when every character is in `[A-Za-z0-9_]`, so `""` is accepted; otherwise the "Alphanumeric characters only…" message |
| `EditProfileForm.ValidateDescription` | client/src/components/Forms/EditProfileForm/index.tsx:46-51 | rejected with "256 maximum character count exceeded" exactly when longer than 256 UTF-16 code units, so `""` passes; for Basic Multilingual Plane text that is exactly more than 256 characters, and 129 characters outside that plane are already rejected |
| `Common.Utf16Length` | client/src/components/Forms/EditProfileForm/index.tsx:47 | JavaScript's `length` counts one code unit per Basic Multilingual Plane character and two per other character, so it lies between the character count and twice it, equal to the first exactly when every character is in that plane and to the second exactly when none is |
| `EditProfileForm.Includes` | client/src/components/Forms/EditProfileForm/index.tsx:33 | `String.prototype.includes` is true exactly when the needle occurs at some index of the haystack |
| `EditProfileForm.GetUsernameErrors` | client/src/components/Forms/EditProfileForm/index.tsx:26-37 | a message exactly when an error is present and its message contains "duplicate key"; the message is the caller's non-empty text, else the default "Username is already in use" text; otherwise `false` |
| `EditProfileForm.ValidateAvatar` | client/src/components/Forms/EditProfileForm/index.tsx:259-266 | no file gives no error; a type outside jpeg/jpg/png gives the format message, checked before size; an allowed type over 2·1024·1024 bytes gives the size message; no error exactly when there is no file or the file has an allowed type and size |
| `EditProfileForm.SubmitData` | client/src/components/Forms/EditProfileForm/index.tsx:143-159 | the keys are always description, fullName, username and isFullNameHidden, plus `avatar` exactly when a file was chosen and `github` exactly when the box is checked (as `true`) |
| `ContentDataSource.Split` | server/src/services/content/datasources/ContentDataSource.js:219 | `split` with a one-character separator returns at least one piece, and no piece contains the separator |
| `ContentDataSource.JoinSplit` | server/src/services/content/datasources/ContentDataSource.js:219 | joining the pieces of a split with the separator gives back the original string |
| `ContentDataSource.SplitJoin` | server/src/services/content/datasources/ContentDataSource.js:219 | splitting a join of separator-free pieces gives back exactly those pieces |
| `ContentDataSource.ContentSort` | server/src/services/content/datasources/ContentDataSource.js:215-227 | the sort has exactly one key with value 1 or -1; no enum or an empty one gives exactly `{createdAt: -1}` |
| `ContentDataSource.FieldDirectionSort` | server/src/services/content/datasources/ContentDataSource.js:218-221 | the enum `<field>_<direction>` sorts on `<field>`, -1 when the direction is `DESC` and 1 for any other direction (proved from the split/join round trip) |
| `ContentDataSource.OrderByEnumSorts` | server/src/services/content/typeDefs.js:205-210 | `createdAt_DESC` gives `{createdAt: -1}` and `createdAt_ASC` gives `{createdAt: 1}` |
| `ContentDataSource.ReplyTarget` | server/src/services/content/datasources/ContentDataSource.js:110-137 | succeeds exactly when one of `to` / `from` is given; neither and both fail with their own messages; `from` selects on the reply's author and `to` on the post's author |
| `ContentDataSource.ValidReplyText` | server/src/models/Reply.js:27-31 | the reply text is valid only when non-empty and at most 256 characters long; for Basic Multilingual Plane text exactly then, while more than 128 characters from outside that plane (each two UTF-16 code units) are rejected |
| `ContentDataSource.ContentStore.FindProfileByUsername` | server/src/services/content/datasources/ContentDataSource.js:24-26 | returns a stored profile with that username, and nothing exactly when no profile has it |
| `ContentDataSource.ContentStore.GetPosts` | server/src/services/content/datasources/ContentDataSource.js:20-55 | without `followedBy` the filter is empty; an unknown username fails with UserInputError; otherwise a post matches exactly when its author is followed by the profile or is the profile, and, only when `includeBlocked` is `false`, its `blocked` is null/missing or false; the sort comes from the enum and the connection from the pager |
| `ContentDataSource.ContentStore.GetOwnPosts` | server/src/services/content/datasources/ContentDataSource.js:57-75 | a post matches exactly when it is authored by the given profile |
| `ContentDataSource.ContentStore.GetReplies` | server/src/services/content/datasources/ContentDataSource.js:102-148 | the `to` / `from` errors, then the unknown-user error; otherwise a reply matches exactly when its author (`from`) or its post's author (`to`) is the named profile |
| `ContentDataSource.ContentStore.GetOwnReplies` | server/src/services/content/datasources/ContentDataSource.js:150-168 | a reply matches exactly when it is authored by the given profile |
| `ContentDataSource.ContentStore.GetPostReplies` | server/src/services/content/datasources/ContentDataSource.js:170-181 | a reply matches exactly when it replies to the given post |
| `ContentDataSource.ContentStore.CreatePost` | server/src/services/content/datasources/ContentDataSource.js:77-88 | fails exactly for an unknown username, changing nothing; otherwise stores under a fresh id a post authored by that profile with the given text, leaving the other posts and collections unchanged |
| `ContentDataSource.ContentStore.DeletePost` | server/src/services/content/datasources/ContentDataSource.js:90-96 | fails exactly for a nonexistent id, changing nothing; otherwise removes only that post and returns its id |
| `ContentDataSource.ContentStore.CreateReply` | server/src/services/content/datasources/ContentDataSource.js:183-205 | a missing author is reported before a missing post; otherwise the reply is stored under a fresh id exactly when its text is non-empty and at most 256 UTF-16 code units (`ValidReplyText`), with `postAuthorProfileId` copied from the parent post |
| `ContentDataSource.ContentStore.DeleteReply` | server/src/services/content/datasources/ContentDataSource.js:207-213 | fails exactly for a nonexistent id, changing nothing; otherwise removes only that reply and returns its id |
| `ContentDataSource.ContentStore.CreateThenDeletePost` | server/src/services/content/datasources/ContentDataSource.js:77-96 | deleting a post right after creating it leaves every collection as it was |
| `Common.Find` | server/src/services/accounts/datasources/AccountsDataSource.js:41-43 | `Array.prototype.find` returns an element of the array that satisfies the predicate and has no satisfying element before it, and `undefined` exactly when no element satisfies it |
| `AccountsDataSource.CreateAccountRequest` | server/src/services/accounts/datasources/AccountsDataSource.js:46-56 | a new account has roles `["author"]`, empty groups, exactly the author permissions and no moderator permission, on the password connection |
| `AccountsDataSource.ModeratorToggle` | server/src/services/accounts/datasources/AccountsDataSource.js:64-81 | a moderator becomes `["author"]` with the author permissions; anyone else becomes `["moderator"]` with author ++ moderator permissions; moderator status flips and groups are emptied |
| `AccountsDataSource.ModeratorToggleTwice` | server/src/services/accounts/datasources/AccountsDataSource.js:64-81 | toggling twice gives back the metadata exactly when it is the canonical author or moderator metadata |
| `AccountsDataSource.CheckAccountUpdate` | server/src/services/accounts/datasources/AccountsDataSource.js:84-105 | no field, all three fields, or exactly one of password / newPassword are each rejected with their message; accepted exactly for an email alone (set the email) or both passwords without an email (set the password to newPassword) |
| `AccountsDataSource.LuceneQuery` | server/src/services/accounts/datasources/AccountsDataSource.js:35 | empty exactly for no ids; one id gives the single `user_id:<id>` term |
| `AccountsDataSource.LuceneQueryAppend` | server/src/services/accounts/datasources/AccountsDataSource.js:35 | one more id appends exactly " OR user_id:<id>", so the query is the terms joined by " OR " |
| `AccountsDataSource.AccountsForIds` | server/src/services/accounts/datasources/AccountsDataSource.js:41-43 | the result has the length and order of `ids`; each slot holds the first returned account whose `user_id` is that id, and is empty exactly when no account has it |
| `AccountsDataSource.AccountStore.ChangeAccountBlockedStatus` | server/src/services/accounts/datasources/AccountsDataSource.js:59-62 | sets the user's `blocked` to its negation and changes nothing else; an unknown id fails |
| `AccountsDataSource.AccountStore.ChangeAccountModeratorRole` | server/src/services/accounts/datasources/AccountsDataSource.js:64-82 | replaces only the user's metadata by the toggled roles and permissions; an unknown id fails |
| `AccountsDataSource.AccountStore.UpdateAccount` | server/src/services/accounts/datasources/AccountsDataSource.js:84-106 | after the argument checks, sets only the password (when the current password is accepted) or only the email; every failure leaves the store unchanged |
| `AccountsDataSource.AccountStore.ToggleBlockedTwice` | server/src/services/accounts/datasources/AccountsDataSource.js:59-62 | toggling the blocked status twice leaves the store unchanged |
| `AccountsDataSource.AccountStore.ToggleModeratorTwice` | server/src/services/accounts/datasources/AccountsDataSource.js:64-82 | promoting an author and demoting them again restores their roles and permissions |
| `ProfileResolvers.ProfileById` | server/src/services/profiles/datasources/ProfilesDataSource.js:20-22 | the stored profile with that id, and nothing exactly when the id is missing or unknown |
| `ProfileResolvers.ProfileByUsername` | server/src/services/profiles/datasources/ProfilesDataSource.js:12-14 | a stored profile with that username, and nothing exactly when none has it |
| `ProfileResolvers.PinnableItemId` | server/src/services/profiles/resolvers.js:4-8 | a pinned item's id is its GitHub id |
| `ProfileResolvers.ProfileId` | server/src/services/profiles/resolvers.js:50-52 | a profile's id is its document `_id` |
| `ProfileResolvers.Account` | server/src/services/profiles/resolvers.js:13-15 | the account is the stub `{__typename: "Account", id: accountId}` |
| `ProfileResolvers.Username` | server/src/services/profiles/resolvers.js:68-104 | the parent's username if non-empty, else the stored username, else `""` when no stored profile exists |
| `ProfileResolvers.Avatar` | server/src/services/profiles/resolvers.js:105-118 | the parent's avatar if non-empty, else the stored one; a missing stored profile throws |
| `ProfileResolvers.Description` | server/src/services/profiles/resolvers.js:145-157 | the parent's description if non-empty, else the stored one; a missing stored profile throws |
| `ProfileResolvers.FullName` | server/src/services/profiles/resolvers.js:119-144 | a missing stored profile throws; `""` when either the parent's or the stored `isFullNameHidden` is `true`; otherwise the parent's name if non-empty, else the stored one |
| `ProfileResolvers.HiddenFullNameNeverShown` | server/src/services/profiles/resolvers.js:125-135 | a profile stored as hidden resolves to `""` whatever the parent carries |
| `ProfileResolvers.QueryProfile` | server/src/services/profiles/resolvers.js:170-183 | fails with "Profile does not exist." exactly when no stored profile has the username; otherwise returns one that has it |
| `ProfileResolvers.SearchProfiles` | server/src/services/profiles/resolvers.js:187-201 | forwards `after` and `first` unchanged and the query text as `searchString` |
| `SearchForm.GetTypeFromLabel` | client/src/components/Forms/SearchForm/index.tsx:33-38 | "For Posts" gives "searchPosts", "For Profiles" gives "searchProfiles", and any other label gives nothing |
| `SearchForm.InitialType` | client/src/components/Forms/SearchForm/index.tsx:26-31 | the label of the option with that value; `""` for an absent, empty or unknown `type` |
| `SearchForm.LabelValueRoundTrip` | client/src/components/Forms/SearchForm/index.tsx:13-38 | value → label → value is the identity for every value with a label, and label → value → label is the identity for every label that resolves |
| `SearchForm.SubmitTarget` | client/src/components/Forms/SearchForm/index.tsx:43-54 | navigates exactly when the label resolves, and then to `/search?type=<type>&text=<text>` |

## Left out

- The pagination engine (`server/src/lib/Pagination.js`) is not part of this model. `getEdges` and `getPageInfo` are arbitrary functions (`Pager`). In `getReplies` the source hands `getPageInfo` an un-awaited `getEdges` result; that promise handling is not modelled.
- MongoDB and the identity provider are modelled as in-memory maps and sequences. `findById`, `findOne`, `save` and the provider's `getUser` / `updateUser` / `getUsers` calls are lookups and map updates. Fresh ObjectIds come from a counter (`nextId`). `Date.now` for `createdAt` is a parameter.
- Errors thrown by the stores are approximated: an unknown user id in the identity provider, a wrong current password at the token request, and a TypeError when a field is read from a `null` lookup. Only the error messages written in the core files are exact. The text of Mongoose's validation error is not reproduced. Invalid ObjectId strings (cast errors) are not modelled, because ids are natural numbers.
- `getToken` password verification is an oracle parameter of `UpdateAccount`. The Auth0 client, DataLoader batching and caching are not modelled. Only the loader's query string and its realignment of results are.
- `createAccount` is modelled as the creation payload it sends. The provider's user creation itself is not modelled.
- Pass-throughs to the data sources with no logic of their own are not modelled. These are `getPostById`, `getReplyById`, `deleteAccount`, `getAccountById`, `getAccounts`, `Profile.__resolveReference`, `viewerIsFollowing`, `following`, `Account.profile`, `Query.profiles` and the profile mutations.
- ContentDataSource.ContentStore.CreatePost: stores any text, because the Post schema (`server/src/models/Post.js`) is not part of this model; the 256-character limit the GraphQL schema documents for posts is therefore not enforced. Replies follow `server/src/models/Reply.js` (`ValidReplyText`).
- Profile documents are looked up by `username`, as the data sources query them. `server/src/models/Profile.js` spells the unique schema field `userName`. `ContentStore.Valid` keeps usernames unique.
- The forms' React state, hooks, `setTimeout` message clearing, `URL.createObjectURL`, `console` output and navigation history are UI. The form state at submit time and the chosen file are parameters.
- `SubmitTarget` inserts the search text into the URL without encoding, as the source does. How the search page parses that query string (the `query-string` library) is not part of this model.
- Async/await ordering is not modelled. Each operation reads one consistent state of the stores.
