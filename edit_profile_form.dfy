/** The field validators of the profile editing form and the update data it submits. */
module EditProfileForm {
  import opened Common

  /** What a form-field validator returns: `true` (accepted) or the message to show. */
  datatype Verdict = Accepted | Rejected(message: string)

  /** The error an update mutation failed with; only its message is inspected. */
  datatype ApolloError = ApolloError(message: string)

  /** The chosen avatar file: its MIME type and its size in bytes. */
  datatype File = File(mimeType: string, size: nat)

  /** The form state when the form is submitted. */
  datatype ProfileForm = ProfileForm(
    description: Option<string>,
    fullName: Option<string>,
    username: string,
    isFullNameHidden: bool,
    githubChecked: bool)

  /** A value in the submitted update object. */
  datatype FieldValue = Text(text: Option<string>) | Flag(flag: bool) | Upload(file: File)

  const UsernameFormatMessage := "Alphanumeric characters only (use underscores for whitespace)"
  const DescriptionLengthMessage := "256 maximum character count exceeded"
  const DefaultUsernameInUseMessage := "Username is already in use \U{1F61E}"
  const DuplicateKey := "duplicate key"
  const MaxDescriptionLength := 256
  const ValidFormats := ["image/jpeg", "image/jpg", "image/png"]
  const MaxAvatarBytes := 2 * 1024 * 1024
  const FormatMessage := "Upload JPG or PNG files only"
  const SizeMessage := "Maximum file size is 2MB"

  /** The character class `[A-Za-z\d_]` (without the `u` flag, `\d` is the ASCII digits). */
  predicate IsUsernameChar(c: char)
  {
    ('A' <= c <= 'Z') || ('a' <= c <= 'z') || ('0' <= c <= '9') || c == '_'
  }

  /** The test of the regular expression `^[A-Za-z\d_]*$` against `s`. */
  function MatchesUsernamePattern(s: string): (b: bool)
    ensures b <==> forall i :: 0 <= i < |s| ==> IsUsernameChar(s[i])
  {
    if s == [] then true else IsUsernameChar(s[0]) && MatchesUsernamePattern(s[1..])
  }

  /** `validateUsername`: accepts exactly the strings made of letters, digits and underscores,
      the empty string included. */
  function ValidateUsername(s: string): (r: Verdict)
    ensures r == Accepted <==> forall i :: 0 <= i < |s| ==> IsUsernameChar(s[i])
    ensures r != Accepted ==> r == Rejected(UsernameFormatMessage)
  {
    if !MatchesUsernamePattern(s) then Rejected(UsernameFormatMessage) else Accepted
  }

  /** `validateDescription`: rejects only descriptions longer than 256 UTF-16 code units, which for
      text in the Basic Multilingual Plane is 256 characters. */
  function ValidateDescription(s: string): (r: Verdict)
    ensures r == Accepted ==> |s| <= MaxDescriptionLength
    ensures (forall i :: 0 <= i < |s| ==> InBasicPlane(s[i])) ==> (r == Accepted <==> |s| <= MaxDescriptionLength)
    ensures |s| > MaxDescriptionLength / 2 && (forall i :: 0 <= i < |s| ==> !InBasicPlane(s[i])) ==> r != Accepted
    ensures r != Accepted ==> r == Rejected(DescriptionLengthMessage)
  {
    if s != "" && Utf16Length(s) > MaxDescriptionLength then Rejected(DescriptionLengthMessage) else Accepted
  }

  /** `needle` occurs in `haystack` starting at index `i`. */
  predicate OccursAt(haystack: string, needle: string, i: int)
  {
    0 <= i && i + |needle| <= |haystack| && haystack[i..i + |needle|] == needle
  }

  /** `haystack.includes(needle)`. */
  function Includes(haystack: string, needle: string): (b: bool)
    ensures b <==> exists i :: OccursAt(haystack, needle, i)
    decreases |haystack|
  {
    if OccursAt(haystack, needle, 0) then true
    else if haystack == [] then false
    else
      var b := Includes(haystack[1..], needle);
      assert b ==> exists i :: OccursAt(haystack, needle, i) by {
        if b {
          var i :| OccursAt(haystack[1..], needle, i);
          assert haystack[i + 1..i + 1 + |needle|] == haystack[1..][i..i + |needle|];
          assert OccursAt(haystack, needle, i + 1);
        }
      }
      assert !b ==> forall i :: !OccursAt(haystack, needle, i) by {
        if !b {
          forall i | OccursAt(haystack, needle, i)
            ensures false
          {
            assert haystack[i..i + |needle|] == haystack[1..][i - 1..i - 1 + |needle|];
            assert OccursAt(haystack[1..], needle, i - 1);
          }
        }
      }
      b
  }

  /** `getUsernameErrors`: a message only for an error whose text mentions a duplicate key, the
      caller's own message when one is given and the default one otherwise; `None` stands for `false`. */
  function GetUsernameErrors(error: Option<ApolloError>, errorMessage: string): (r: Option<string>)
    ensures r.Some? <==> error.Some? && Includes(error.value.message, DuplicateKey)
    ensures r.Some? && errorMessage != "" ==> r.value == errorMessage
    ensures r.Some? && errorMessage == "" ==> r.value == DefaultUsernameInUseMessage
  {
    var message := if errorMessage != "" then errorMessage else DefaultUsernameInUseMessage;
    if error.Some? && Includes(error.value.message, DuplicateKey) then Some(message) else None
  }

  /** The avatar field's validator: the format is checked before the size; `None` is "no error". */
  function ValidateAvatar(file: Option<File>): (r: Option<string>)
    ensures r.None? <==> file.None? || (file.value.mimeType in ValidFormats && file.value.size <= MaxAvatarBytes)
    ensures file.Some? && file.value.mimeType !in ValidFormats ==> r == Some(FormatMessage)
    ensures file.Some? && file.value.mimeType in ValidFormats && file.value.size > MaxAvatarBytes ==>
              r == Some(SizeMessage)
  {
    if file.Some? && file.value.mimeType !in ValidFormats then Some(FormatMessage)
    else if file.Some? && file.value.size > MaxAvatarBytes then Some(SizeMessage)
    else None
  }

  /** The fields every submission carries. */
  const AlwaysSent: set<string> := {"description", "fullName", "username", "isFullNameHidden"}

  /** The `data` object built on submit: the four form fields, then `avatar` spread in only when a
      file was chosen, then `github` spread in only when its box is checked. */
  function SubmitData(form: ProfileForm, file: Option<File>): (data: map<string, FieldValue>)
    ensures data.Keys == AlwaysSent + (if file.Some? then {"avatar"} else {})
                                     + (if form.githubChecked then {"github"} else {})
    ensures data["description"] == Text(form.description) && data["fullName"] == Text(form.fullName)
    ensures data["username"] == Text(Some(form.username))
    ensures data["isFullNameHidden"] == Flag(form.isFullNameHidden)
    ensures "avatar" in data ==> data["avatar"] == Upload(file.value)
    ensures "github" in data ==> data["github"] == Flag(true)
  {
    var fields := map[
      "description" := Text(form.description),
      "fullName" := Text(form.fullName),
      "username" := Text(Some(form.username)),
      "isFullNameHidden" := Flag(form.isFullNameHidden)];
    var avatar: map<string, FieldValue> := if file.Some? then map["avatar" := Upload(file.value)] else map[];
    var github: map<string, FieldValue> := if form.githubChecked then map["github" := Flag(true)] else map[];
    fields + avatar + github
  }
}
