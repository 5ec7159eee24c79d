/** The accounts service's data source over the identity provider's user store: account creation
    defaults, the blocked and moderator toggles, the rules for updating an email or password, and the
    batch loader that fetches accounts by id. */
module AccountsDataSource {
  import opened Common

  const AuthorPermissions: seq<string> := [
    "read:own_account",
    "edit:own_account",
    "read:any_profile",
    "edit:own_profile",
    "read:any_content",
    "edit:own_content",
    "upload:own_media"]

  const ModeratorPermissions: seq<string> := [
    "read:any_account",
    "block:any_account",
    "promote:any_account",
    "block:any_content"]

  /** The `app_metadata` of a user: groups, roles and permissions. */
  datatype AppMetadata = AppMetadata(groups: seq<string>, roles: seq<string>, permissions: seq<string>)

  /** A user record in the identity provider's store. */
  datatype User = User(userId: string, email: string, password: string, blocked: bool, appMetadata: AppMetadata)

  /** The payload `createAccount` sends to create a user. */
  datatype NewUser = NewUser(appMetadata: AppMetadata, connection: string, email: string, password: string)

  /** The input of `updateAccount`. */
  datatype AccountInput = AccountInput(email: Option<string>, newPassword: Option<string>, password: Option<string>)

  /** The one change an accepted `updateAccount` call makes. */
  datatype AccountChange = ChangePassword(current: string, newPassword: string) | ChangeEmail(email: string)

  const PasswordConnection := "Username-Password-Authentication"
  const NoAccountDataMessage := "You must supply some account data to update."
  const SimultaneousUpdateMessage := "Email and password cannot be updated simultaneously."
  const BothPasswordsMessage := "Provide the existing and new passwords when updating the password."
  /** The identity provider's answer for an unknown user id. */
  const UnknownUserMessage := "The user does not exist."
  /** The token request's answer for a wrong current password. */
  const WrongPasswordMessage := "Wrong email or password."

  /** The metadata of an author, as every account starts. */
  const AuthorMetadata := AppMetadata([], ["author"], AuthorPermissions)

  /** The metadata of a moderator. */
  const ModeratorMetadata := AppMetadata([], ["moderator"], AuthorPermissions + ModeratorPermissions)

  predicate IsModerator(m: AppMetadata)
  {
    "moderator" in m.roles
  }

  /** `createAccount`: a password account that starts as an author with the author permissions only. */
  function CreateAccountRequest(email: string, password: string): (u: NewUser)
    ensures u.email == email && u.password == password && u.connection == PasswordConnection
    ensures u.appMetadata.roles == ["author"] && u.appMetadata.groups == []
    ensures !IsModerator(u.appMetadata)
    ensures forall p :: p in ModeratorPermissions ==> p !in u.appMetadata.permissions
    ensures forall p :: p in AuthorPermissions <==> p in u.appMetadata.permissions
  {
    NewUser(AuthorMetadata, PasswordConnection, email, password)
  }

  /** The metadata `changeAccountModeratorRole` writes: a moderator becomes an author with the author
      permissions; anyone else becomes a moderator with the author and moderator permissions. */
  function ModeratorToggle(m: AppMetadata): (r: AppMetadata)
    ensures IsModerator(r) <==> !IsModerator(m)
    ensures r.groups == [] && |r.roles| == 1
    ensures forall p :: p in AuthorPermissions ==> p in r.permissions
    ensures forall p :: p in ModeratorPermissions ==> (p in r.permissions <==> IsModerator(r))
    ensures IsModerator(m) ==> r == AuthorMetadata
    ensures !IsModerator(m) ==> r == ModeratorMetadata
  {
    var isModerator := IsModerator(m);
    var roles := if isModerator then ["author"] else ["moderator"];
    var permissions := if isModerator then AuthorPermissions else AuthorPermissions + ModeratorPermissions;
    AppMetadata([], roles, permissions)
  }

  /** Toggling the role twice restores exactly the two canonical metadata values and no other. */
  lemma ModeratorToggleTwice(m: AppMetadata)
    ensures ModeratorToggle(ModeratorToggle(m)) == m <==> m == AuthorMetadata || m == ModeratorMetadata
  {
  }

  /** The argument checks of `updateAccount`: either an email alone, or the current and the new
      password without an email. */
  function CheckAccountUpdate(input: AccountInput): (r: Result<AccountChange>)
    ensures r.Success? <==>
              || (Present(input.email) && !Present(input.newPassword) && !Present(input.password))
              || (!Present(input.email) && Present(input.newPassword) && Present(input.password))
    ensures !Present(input.email) && !Present(input.newPassword) && !Present(input.password) ==>
              r == Failure(NoAccountDataMessage)
    ensures Present(input.email) && Present(input.newPassword) && Present(input.password) ==>
              r == Failure(SimultaneousUpdateMessage)
    ensures Present(input.newPassword) != Present(input.password) ==> r == Failure(BothPasswordsMessage)
    ensures r.Success? && !Present(input.email) ==> r.value == ChangePassword(input.password.value, input.newPassword.value)
    ensures r.Success? && Present(input.email) ==> r.value == ChangeEmail(input.email.value)
  {
    var email, newPassword, password := Present(input.email), Present(input.newPassword), Present(input.password);
    if !email && !newPassword && !password then Failure(NoAccountDataMessage)
    else if email && newPassword && password then Failure(SimultaneousUpdateMessage)
    else if (!password && newPassword) || (password && !newPassword) then Failure(BothPasswordsMessage)
    else if !email then Success(ChangePassword(input.password.value, input.newPassword.value))
    else Success(ChangeEmail(input.email.value))
  }

  /** One term of the search query. */
  function UserIdTerm(id: string): string
  {
    "user_id:" + id
  }

  /** The Lucene query of the loader: the `user_id:<id>` terms joined by " OR ". */
  function LuceneQuery(ids: seq<string>): (q: string)
    ensures |ids| == 1 ==> q == UserIdTerm(ids[0])
    ensures ids == [] <==> q == ""
  {
    if ids == [] then ""
    else if |ids| == 1 then UserIdTerm(ids[0])
    else UserIdTerm(ids[0]) + " OR " + LuceneQuery(ids[1..])
  }

  /** Asking for one more id appends one more " OR " term. */
  lemma {:induction false} LuceneQueryAppend(ids: seq<string>, id: string)
    requires ids != []
    ensures LuceneQuery(ids + [id]) == LuceneQuery(ids) + " OR " + UserIdTerm(id)
  {
    if |ids| > 1 {
      assert (ids + [id])[1..] == ids[1..] + [id];
      LuceneQueryAppend(ids[1..], id);
    } else {
      assert (ids + [id])[1..] == [id];
    }
  }

  /** The loader's result: for each requested id, in order, the first account with that `user_id`
      in the provider's answer, or `None` when there is none. */
  function AccountsForIds(ids: seq<string>, accounts: seq<User>): (r: seq<Option<User>>)
    ensures |r| == |ids|
    ensures forall i :: 0 <= i < |r| && r[i].Some? ==> r[i].value in accounts && r[i].value.userId == ids[i]
    ensures forall i :: 0 <= i < |r| ==> (r[i].None? <==> forall a :: a in accounts ==> a.userId != ids[i])
    ensures forall i :: 0 <= i < |r| && r[i].Some? ==>
              exists k :: 0 <= k < |accounts| && accounts[k] == r[i].value &&
                forall j :: 0 <= j < k ==> accounts[j].userId != ids[i]
  {
    if ids == [] then []
    else [Find(accounts, (a: User) => a.userId == ids[0])] + AccountsForIds(ids[1..], accounts)
  }

  /** The identity provider's user store, keyed by user id. */
  class AccountStore {
    var users: map<string, User>

    ghost predicate Valid()
      reads this
    {
      forall id :: id in users ==> users[id].userId == id
    }

    constructor (users: map<string, User>)
      requires forall id :: id in users ==> users[id].userId == id
      ensures Valid() && this.users == users
    {
      this.users := users;
    }

    /** `changeAccountBlockedStatus`: negates the user's `blocked` flag and returns the updated user. */
    method ChangeAccountBlockedStatus(id: string) returns (r: Result<User>)
      requires Valid()
      modifies this
      ensures Valid()
      ensures r.Failure? <==> id !in old(users)
      ensures r.Failure? ==> r.error == UnknownUserMessage && users == old(users)
      ensures r.Success? ==> r.value == old(users)[id].(blocked := !old(users)[id].blocked)
                             && users == old(users)[id := r.value]
    {
      if id !in users {
        r := Failure(UnknownUserMessage);
        return;
      }
      var user := users[id];
      var updated := user.(blocked := !user.blocked);
      users := users[id := updated];
      r := Success(updated);
    }

    /** `changeAccountModeratorRole`: replaces the user's metadata by the toggled role and permissions. */
    method ChangeAccountModeratorRole(id: string) returns (r: Result<User>)
      requires Valid()
      modifies this
      ensures Valid()
      ensures r.Failure? <==> id !in old(users)
      ensures r.Failure? ==> r.error == UnknownUserMessage && users == old(users)
      ensures r.Success? ==> r.value == old(users)[id].(appMetadata := ModeratorToggle(old(users)[id].appMetadata))
                             && users == old(users)[id := r.value]
    {
      if id !in users {
        r := Failure(UnknownUserMessage);
        return;
      }
      var user := users[id];
      var updated := user.(appMetadata := ModeratorToggle(user.appMetadata));
      users := users[id := updated];
      r := Success(updated);
    }

    /** `updateAccount`: after the argument checks, either changes the password, once the current
        one is accepted for the user's email, or changes the email. `passwordAccepted` stands for the
        token request made with the user's email and the current password. */
    method UpdateAccount(id: string, input: AccountInput, passwordAccepted: (string, string) -> bool)
      returns (r: Result<User>)
      requires Valid()
      modifies this
      ensures Valid()
      ensures CheckAccountUpdate(input).Failure? ==> r == Failure(CheckAccountUpdate(input).error)
      ensures CheckAccountUpdate(input).Success? && id !in old(users) ==> r == Failure(UnknownUserMessage)
      ensures r.Failure? ==> users == old(users)
      ensures CheckAccountUpdate(input).Success? && id in old(users) ==>
                match CheckAccountUpdate(input)
                case Success(ChangePassword(current, newPassword)) =>
                  if passwordAccepted(old(users)[id].email, current)
                  then r == Success(old(users)[id].(password := newPassword)) && users == old(users)[id := r.value]
                  else r == Failure(WrongPasswordMessage)
                case Success(ChangeEmail(email)) =>
                  r == Success(old(users)[id].(email := email)) && users == old(users)[id := r.value]
    {
      var change := CheckAccountUpdate(input);
      if change.Failure? {
        r := Failure(change.error);
        return;
      }
      if id !in users {
        r := Failure(UnknownUserMessage);
        return;
      }
      var user := users[id];
      match change.value {
        case ChangePassword(current, newPassword) =>
          if !passwordAccepted(user.email, current) {
            r := Failure(WrongPasswordMessage);
            return;
          }
          var updated := user.(password := newPassword);
          users := users[id := updated];
          r := Success(updated);
        case ChangeEmail(email) =>
          var updated := user.(email := email);
          users := users[id := updated];
          r := Success(updated);
      }
    }

    /** Toggling the blocked status twice leaves every user as it was. */
    method ToggleBlockedTwice(id: string)
      requires Valid()
      modifies this
      ensures Valid() && users == old(users)
    {
      var first := ChangeAccountBlockedStatus(id);
      var second := ChangeAccountBlockedStatus(id);
      if id in old(users) {
        assert old(users)[id := first.value][id := second.value] == old(users);
      }
    }

    /** Promoting an author to moderator and demoting them again restores their roles and permissions. */
    method ToggleModeratorTwice(id: string)
      requires Valid()
      requires id in users && users[id].appMetadata == AuthorMetadata
      modifies this
      ensures Valid() && users == old(users)
    {
      var first := ChangeAccountModeratorRole(id);
      var second := ChangeAccountModeratorRole(id);
      ModeratorToggleTwice(old(users)[id].appMetadata);
      assert old(users)[id := first.value][id := second.value] == old(users);
    }
  }
}
