/** The profile form (components/profile/profile-form.tsx): the editable
    fields, the initials shown when there is no avatar, the storage paths of
    an avatar upload and the save. Storage and database calls are
    parameters: whether they report an error, and the public URL of an
    uploaded file. */
module ProfileForm {
  import opened Rows
  import opened Strings

  /** The `formData` state. */
  datatype FormData = FormData(fullName: string, bio: string, careerGoal: string, avatarUrl: string)

  /** The field names `handleInputChange` is called with. */
  datatype Field = FullName | Bio | CareerGoal | AvatarUrl

  function Get(d: FormData, f: Field): string {
    match f
    case FullName => d.fullName
    case Bio => d.bio
    case CareerGoal => d.careerGoal
    case AvatarUrl => d.avatarUrl
  }

  /** A `profiles` row as the page loads it; each column may be null. */
  datatype Profile = Profile(fullName: Option<string>, bio: Option<string>, careerGoal: Option<string>, avatarUrl: Option<string>)

  /** The initial `formData`: each field `profile?.field || ""`. A field is
      non-empty only when the profile has that non-empty value. */
  function InitialFormData(profile: Option<Profile>): (d: FormData)
    ensures profile.None? ==> d == FormData("", "", "", "")
    ensures forall f :: Get(d, f) != "" ==> profile.Some? && Get(d, f) == Get(Loaded(profile.value), f)
    ensures profile.Some? ==> d == Loaded(profile.value)
  {
    if profile.None? then FormData("", "", "", "") else Loaded(profile.value)
  }

  function Loaded(p: Profile): FormData {
    FormData(p.fullName.GetOr(""), p.bio.GetOr(""), p.careerGoal.GetOr(""), p.avatarUrl.GetOr(""))
  }

  /** `.map((n) => n[0]).join("")`: the first character of every part; an
      empty part gives `undefined`, which `join` writes as nothing. */
  function FirstChars(parts: seq<string>): (r: string)
    ensures |r| <= |parts|
  {
    if |parts| == 0 then ""
    else (if parts[0] == "" then "" else [parts[0][0]]) + FirstChars(parts[1..])
  }

  /** The parts of a split have no first characters at all exactly when the
      input is made of separators only. */
  lemma {:induction false} NoFirstChars(s: string, sep: char)
    ensures FirstChars(Split(s, sep)) == "" <==> forall i :: 0 <= i < |s| ==> s[i] == sep
    decreases |s|
  {
    if |s| > 0 {
      var rest := Split(s[1..], sep);
      assert forall i :: 0 < i < |s| ==> s[i] == s[1..][i - 1];
      NoFirstChars(s[1..], sep);
      if s[0] == sep {
        assert ([""] + rest)[1..] == rest;
      } else {
        assert Split(s, sep)[0][0] == s[0];
      }
    }
  }

  /** `initials`: for a non-empty full name, the upper-cased first characters
      of its space-separated parts; otherwise the upper-cased first character
      of the email; otherwise "U". */
  function Initials(fullName: string, email: Option<string>): (r: string)
    ensures fullName != "" ==> |r| <= |Split(fullName, ' ')|
    ensures fullName != "" && fullName[0] != ' ' ==> |r| >= 1 && r[0] == UpperChar(fullName[0])
    ensures fullName == "" && email.Some? && email.value != "" ==> r == [UpperChar(email.value[0])]
    ensures fullName == "" && (email.None? || email.value == "") ==> r == "U"
  {
    if fullName != "" then
      var parts := Split(fullName, ' ');
      assert parts[0] != "" ==> parts[0][0] == fullName[0];
      Upper(FirstChars(parts))
    else if email.Some? && email.value != "" then Upper([email.value[0]])
    else "U"
  }

  /** The first characters of non-empty parts are exactly those characters,
      one per part, in order. */
  lemma {:induction false} FirstCharsOfWords(parts: seq<string>)
    requires forall i :: 0 <= i < |parts| ==> parts[i] != ""
    ensures |FirstChars(parts)| == |parts|
    ensures forall k :: 0 <= k < |parts| ==> FirstChars(parts)[k] == parts[k][0]
    decreases |parts|
  {
    if |parts| > 0 {
      FirstCharsOfWords(parts[1..]);
      forall k | 0 < k < |parts| ensures FirstChars(parts)[k] == parts[k][0] {
        assert parts[1..][k - 1] == parts[k];
      }
    }
  }

  /** A name made of words separated by single spaces gets one initial per
      word: the word's first character, upper-cased. */
  lemma InitialsOfWords(words: seq<string>, email: Option<string>)
    requires |words| >= 1
    requires forall i :: 0 <= i < |words| ==> words[i] != "" && ' ' !in words[i]
    ensures var r := Initials(Join(words, ' '), email);
      |r| == |words| && forall k :: 0 <= k < |words| ==> r[k] == UpperChar(words[k][0])
  {
    SplitJoin(words, ' ');
    FirstCharsOfWords(words);
  }

  /** "ada lovelace" has the initials "AL". */
  lemma InitialsExample()
    ensures Initials("ada lovelace", None) == "AL"
  {
    InitialsOfWords(["ada", "lovelace"], None);
    assert Join(["ada", "lovelace"], ' ') == "ada lovelace";
  }

  /** The initials are empty exactly when the full name is non-empty but made
      of spaces only; every other name or email gives at least one letter. */
  lemma InitialsEmptyIff(fullName: string, email: Option<string>)
    ensures Initials(fullName, email) == "" <==> fullName != "" && forall i :: 0 <= i < |fullName| ==> fullName[i] == ' '
  {
    if fullName != "" {
      NoFirstChars(fullName, ' ');
    }
  }

  /** `fileName`: `${user.id}/avatar.${fileExt}`, the extension being the
      text after the last "." of the file's name. */
  function AvatarPath(userId: string, fileName: string): (p: string) {
    userId + "/avatar." + AfterLast(fileName, '.')
  }

  /** The upload path keeps the file's extension: the text after its last
      "." is the text after the last "." of the file name (the whole name
      when it has no dot, by `AfterLastShape`). */
  lemma AvatarPathExtension(userId: string, fileName: string)
    ensures AfterLast(AvatarPath(userId, fileName), '.') == AfterLast(fileName, '.')
  {
    var ext := AfterLast(fileName, '.');
    assert AvatarPath(userId, fileName) == (userId + "/avatar") + ['.'] + ext;
    AfterLastAppend(userId + "/avatar", '.', ext);
  }

  /** The removal of the current avatar: with a non-empty `avatar_url`, the
      path `${user.id}/${last "/"-segment}`, unless that segment is empty. */
  function RemovalPath(userId: string, avatarUrl: string): (p: Option<string>)
    ensures p.Some? <==> avatarUrl != "" && AfterLast(avatarUrl, '/') != ""
    ensures p.Some? ==> p.value == userId + "/" + AfterLast(avatarUrl, '/') && '/' !in AfterLast(avatarUrl, '/')
  {
    if avatarUrl != "" then
      var existingPath := AfterLast(avatarUrl, '/');
      if existingPath != "" then Some(userId + "/" + existingPath) else None
    else None
  }

  /** When the avatar in the form is the public URL of an earlier upload
      (a URL ending in "/" and the upload path), the next upload removes
      exactly that earlier file, provided the file name has no "/". */
  lemma RemovalPathOfUpload(userId: string, base: string, fileName: string)
    requires '/' !in fileName
    ensures RemovalPath(userId, base + "/" + AvatarPath(userId, fileName)) == Some(AvatarPath(userId, fileName))
  {
    var ext := AfterLast(fileName, '.');
    AfterLastShape(fileName, '.');
    assert '/' !in ext by {
      forall i | 0 <= i < |ext| ensures ext[i] != '/' {
        assert ext[i] == fileName[|fileName| - |ext| + i];
      }
    }
    var tail := "avatar." + ext;
    assert '/' !in tail by {
      forall i | 0 <= i < |tail| ensures tail[i] != '/' {
        if i >= 7 { assert tail[i] == ext[i - 7]; }
      }
    }
    var url := base + "/" + AvatarPath(userId, fileName);
    assert url == (base + "/" + userId) + ['/'] + tail;
    AfterLastAppend(base + "/" + userId, '/', tail);
    assert AfterLast(url, '/') == tail;
    assert userId + "/" + tail == AvatarPath(userId, fileName);
  }

  /** The `profiles` row `handleSubmit` upserts; `updated_at` is left out. */
  datatype ProfileRow = ProfileRow(id: string, fullName: string, bio: string, careerGoal: string, avatarUrl: string)

  class Form {
    const userId: string
    const email: Option<string>
    var formData: FormData
    var isLoading: bool
    var isUploading: bool

    constructor (id: string, userEmail: Option<string>, profile: Option<Profile>)
      ensures userId == id && email == userEmail
      ensures formData == InitialFormData(profile)
      ensures !isLoading && !isUploading
    {
      userId := id;
      email := userEmail;
      formData := InitialFormData(profile);
      isLoading := false;
      isUploading := false;
    }

    /** `handleInputChange`: the named field takes the value and every other
        field keeps its own. */
    method InputChange(field: Field, value: string)
      modifies this
      ensures Get(formData, field) == value
      ensures forall f :: f != field ==> Get(formData, f) == Get(old(formData), f)
      ensures isLoading == old(isLoading) && isUploading == old(isUploading)
    {
      match field
      case FullName => formData := formData.(fullName := value);
      case Bio => formData := formData.(bio := value);
      case CareerGoal => formData := formData.(careerGoal := value);
      case AvatarUrl => formData := formData.(avatarUrl := value);
    }

    /** `handleAvatarUpload`. `file` is the chosen file's name, if a file was
        chosen; `uploadFails` whether the upload reports an error; `publicUrl`
        the public URL storage gives for the upload path. Returns the path
        removed first, if any, and the path uploaded to. Only a successful
        upload changes the form, and only its avatar. */
    method AvatarUpload(file: Option<string>, uploadFails: bool, publicUrl: string)
      returns (removed: Option<string>, uploaded: Option<string>)
      modifies this
      ensures file.None? ==> removed.None? && uploaded.None? && isUploading == old(isUploading)
      ensures file.Some? ==> uploaded == Some(AvatarPath(userId, file.value)) && !isUploading
      ensures file.Some? ==> removed == RemovalPath(userId, old(formData).avatarUrl)
      ensures formData.avatarUrl == if file.Some? && !uploadFails then publicUrl else old(formData).avatarUrl
      ensures forall f :: f != AvatarUrl ==> Get(formData, f) == Get(old(formData), f)
      ensures isLoading == old(isLoading)
    {
      removed, uploaded := None, None;
      if file.None? {
        return;
      }
      isUploading := true;
      var fileName := AvatarPath(userId, file.value);
      removed := RemovalPath(userId, formData.avatarUrl);
      uploaded := Some(fileName);
      if !uploadFails {
        formData := formData.(avatarUrl := publicUrl);
      }
      isUploading := false;
    }

    /** `handleSubmit`: the form is upserted under the user's id; the page is
        refreshed only when the upsert succeeds. The form itself is kept. */
    method Submit(upsertFails: bool) returns (sent: ProfileRow, refreshed: bool)
      modifies this
      ensures sent.id == userId
      ensures sent.fullName == formData.fullName && sent.bio == formData.bio
      ensures sent.careerGoal == formData.careerGoal && sent.avatarUrl == formData.avatarUrl
      ensures refreshed <==> !upsertFails
      ensures formData == old(formData) && !isLoading && isUploading == old(isUploading)
    {
      isLoading := true;
      sent := ProfileRow(userId, formData.fullName, formData.bio, formData.careerGoal, formData.avatarUrl);
      refreshed := !upsertFails;
      isLoading := false;
    }

    /** The initials of the current form. */
    function CurrentInitials(): string
      reads this
    {
      Initials(formData.fullName, email)
    }
  }
}
