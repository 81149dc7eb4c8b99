/** The profile page (src/pages/Perfil.tsx): the edited copy of the profile, the avatar
    file checks, saving and cancelling, and the initials shown when there is no avatar.
    The profile, the signed-in user and the remote answers are parameters. */
module Perfil {
  import opened Wrappers
  import opened DateKeys

  /** The stored profile; every field may be missing. */
  datatype Profile = Profile(name: Option<string>, telefone: Option<string>, endereco: Option<string>, avatar_url: Option<string>)

  /** The page's form state. */
  datatype ProfileForm = ProfileForm(nome: string, email: string, telefone: string, endereco: string, avatar: string)

  /** The fields edited through `handleInputChange`, as the inputs name them. */
  datatype Field = Nome | Email | Telefone | Endereco | Avatar

  /** What `updateProfile` is sent. The e-mail is not part of it. */
  datatype ProfileUpdate = ProfileUpdate(name: string, telefone: string, endereco: string, avatar_url: string)

  /** The chosen file, as far as the checks look at it. */
  datatype FileInfo = FileInfo(mimeType: string, size: nat)

  /** `x || ""` on an optional string. */
  function OrEmpty(s: Option<string>): (r: string)
    ensures s.Some? ==> r == s.value
    ensures s.None? ==> r == ""
  {
    if s.Some? then s.value else ""
  }

  /** The form filled from the profile and the user's e-mail, missing values as `""`. */
  function FormFromProfile(p: Profile, email: Option<string>): (f: ProfileForm)
    ensures f.nome == OrEmpty(p.name) && f.email == OrEmpty(email)
    ensures f.telefone == OrEmpty(p.telefone) && f.endereco == OrEmpty(p.endereco) && f.avatar == OrEmpty(p.avatar_url)
  {
    ProfileForm(OrEmpty(p.name), OrEmpty(email), OrEmpty(p.telefone), OrEmpty(p.endereco), OrEmpty(p.avatar_url))
  }

  function Get(f: ProfileForm, field: Field): string {
    match field
    case Nome => f.nome
    case Email => f.email
    case Telefone => f.telefone
    case Endereco => f.endereco
    case Avatar => f.avatar
  }

  /** `{ ...prev, [field]: value }`. */
  function Set(f: ProfileForm, field: Field, value: string): (g: ProfileForm)
    ensures Get(g, field) == value
    ensures forall other :: other != field ==> Get(g, other) == Get(f, other)
  {
    match field
    case Nome => f.(nome := value)
    case Email => f.(email := value)
    case Telefone => f.(telefone := value)
    case Endereco => f.(endereco := value)
    case Avatar => f.(avatar := value)
  }

  /** What `handleSave` sends: the form's fields under the profile's names. */
  function UpdateOf(f: ProfileForm): (u: ProfileUpdate)
    ensures u.name == f.nome && u.telefone == f.telefone && u.endereco == f.endereco && u.avatar_url == f.avatar
  {
    ProfileUpdate(f.nome, f.telefone, f.endereco, f.avatar)
  }

  /** Editing the e-mail field changes nothing that is saved. */
  lemma EmailIsNotSaved(f: ProfileForm, value: string)
    ensures UpdateOf(Set(f, Email, value)) == UpdateOf(f)
  {
  }

  // ---------------------------------------------------------------------------
  // Avatar file checks
  // ---------------------------------------------------------------------------

  const MaxAvatarSize: nat := 5 * 1024 * 1024

  datatype AvatarCheck = NoFile | NotAnImage | TooLarge | Accepted

  predicate StartsWith(s: string, prefix: string) {
    |prefix| <= |s| && s[..|prefix|] == prefix
  }

  /** The two checks, in order: the MIME type must start with `image/`, then the size may
      be at most 5 MiB. */
  function CheckFile(file: Option<FileInfo>): (c: AvatarCheck)
    ensures c == NoFile <==> file.None?
    ensures c == NotAnImage <==> file.Some? && !StartsWith(file.value.mimeType, "image/")
    ensures c == TooLarge <==> file.Some? && StartsWith(file.value.mimeType, "image/") && file.value.size > MaxAvatarSize
    ensures c == Accepted <==> file.Some? && StartsWith(file.value.mimeType, "image/") && file.value.size <= 5242880
  {
    if file.None? then NoFile
    else if !StartsWith(file.value.mimeType, "image/") then NotAnImage
    else if file.value.size > MaxAvatarSize then TooLarge
    else Accepted
  }

  /** The 5 MiB limit is inclusive, and the type check comes first. */
  lemma AvatarLimits()
    ensures CheckFile(Some(FileInfo("image/png", 5242880))) == Accepted
    ensures CheckFile(Some(FileInfo("image/png", 5242881))) == TooLarge
    ensures CheckFile(Some(FileInfo("application/pdf", 5242881))) == NotAnImage
  {
    assert "image/png"[..6] == "image/";
    assert "application/pdf"[..6] != "image/" by { assert "application/pdf"[0] != "image/"[0]; }
  }

  // ---------------------------------------------------------------------------
  // getInitials
  // ---------------------------------------------------------------------------

  /** `n[0]`, joined: the first character of each part, nothing for an empty part. */
  function Firsts(parts: seq<string>): string {
    if |parts| == 0 then []
    else (if |parts[0]| == 0 then [] else [parts[0][0]]) + Firsts(parts[1..])
  }

  /** The characters that begin a word, read straight off the name: a non-space character
      at the start or after a space. `atStart` says whether the previous character was a
      space (or there was none). */
  function WordStarts(s: string, atStart: bool): (r: string)
    ensures |r| <= |s|
    ensures forall c :: c in r ==> c in s && c != ' '
  {
    if |s| == 0 then []
    else if s[0] == ' ' then WordStarts(s[1..], true)
    else (if atStart then [s[0]] else []) + WordStarts(s[1..], false)
  }

  /** Splitting at spaces and taking each part's first character picks out exactly the
      word starts; the parts after the first pick out those after the first word. */
  lemma {:induction false} FirstsOfSplit(s: string)
    ensures Firsts(Split(s, ' ')) == WordStarts(s, true)
    ensures Firsts(Split(s, ' ')[1..]) == WordStarts(s, false)
  {
    if |s| > 0 {
      var rest := Split(s[1..], ' ');
      FirstsOfSplit(s[1..]);
      var parts := Split(s, ' ');
      if s[0] == ' ' {
        assert parts == [""] + rest;
        assert parts[1..] == rest;
      } else {
        assert parts == [[s[0]] + rest[0]] + rest[1..];
        assert parts[1..] == rest[1..];
      }
    }
  }

  /** `toUpperCase` on one character, for ASCII letters. */
  function Upper(c: char): (u: char)
    ensures 'a' <= c <= 'z' ==> u as int == c as int - 32
    ensures !('a' <= c <= 'z') ==> u == c
  {
    if 'a' <= c <= 'z' then (c as int - 32) as char else c
  }

  function ToUpper(s: string): (r: string)
    ensures |r| == |s| && forall i :: 0 <= i < |s| ==> r[i] == Upper(s[i])
  {
    if |s| == 0 then [] else [Upper(s[0])] + ToUpper(s[1..])
  }

  function Min(a: int, b: int): int {
    if a < b then a else b
  }

  /** `getInitials`: split at spaces, first character of each part, joined, upper-cased,
      first two. */
  function Initials(name: string): (r: string)
    ensures |r| <= 2
  {
    var joined := ToUpper(Firsts(Split(name, ' ')));
    joined[..Min(2, |joined|)]
  }

  /** The initials are the upper-cased first characters of the first two words, in word
      order; they are never spaces, and an empty or all-space name has none. */
  lemma InitialsAreWordStarts(name: string)
    ensures var w := WordStarts(name, true);
      && |Initials(name)| == Min(2, |w|)
      && forall i :: 0 <= i < |Initials(name)| ==> Initials(name)[i] == Upper(w[i]) && w[i] != ' '
    ensures (forall i :: 0 <= i < |name| ==> name[i] == ' ') ==> Initials(name) == ""
    ensures Initials("") == ""
  {
    FirstsOfSplit(name);
    var w := WordStarts(name, true);
    forall i | 0 <= i < |w|
      ensures w[i] != ' '
    {
      assert w[i] in w;
    }
    if forall i :: 0 <= i < |name| ==> name[i] == ' ' {
      AllSpacesNoStarts(name, true);
    }
  }

  lemma {:induction false} AllSpacesNoStarts(s: string, atStart: bool)
    requires forall i :: 0 <= i < |s| ==> s[i] == ' '
    ensures WordStarts(s, atStart) == []
  {
    if |s| > 0 {
      AllSpacesNoStarts(s[1..], true);
    }
  }

  /** Three words give two initials. */
  lemma InitialsOfThreeWords()
    ensures Initials("ana li bo") == "AL"
  {
    InitialsAreWordStarts("ana li bo");
    ThreeWordStarts();
    assert Upper('a') == 'A' && Upper('l') == 'L';
  }

  lemma ThreeWordStarts()
    ensures WordStarts("ana li bo", true) == "alb"
  {
    ThreeWords();
    WordThenSpace("ana", "li" + " " + "bo");
    WordThenSpace("li", "bo");
    LastWord("bo");
  }

  lemma ThreeWords()
    ensures "ana li bo" == "ana" + " " + ("li" + " " + "bo")
    ensures ' ' !in "ana" && ' ' !in "li" && ' ' !in "bo"
  {
  }

  /** A word followed by a space contributes its first character and resets the scan. */
  lemma WordThenSpace(w: string, rest: string)
    requires |w| > 0 && ' ' !in w
    ensures WordStarts(w + " " + rest, true) == [w[0]] + WordStarts(rest, true)
  {
    assert w + " " + rest == w + (" " + rest);
    WordStartsOfWord(w, " " + rest, true);
    assert (" " + rest)[1..] == rest;
  }

  /** A final word contributes its first character. */
  lemma LastWord(w: string)
    requires |w| > 0 && ' ' !in w
    ensures WordStarts(w, true) == [w[0]]
  {
    assert w + "" == w;
    WordStartsOfWord(w, "", true);
  }

  /** A word contributes its first character, when it starts after a space, and nothing else. */
  lemma {:induction false} WordStartsOfWord(w: string, rest: string, atStart: bool)
    requires ' ' !in w
    ensures WordStarts(w + rest, atStart) == (if atStart && |w| > 0 then [w[0]] else []) + WordStarts(rest, atStart && |w| == 0)
  {
    if |w| > 0 {
      assert (w + rest)[1..] == w[1..] + rest;
      assert w[0] in w;
      WordStartsOfWord(w[1..], rest, false);
    } else {
      assert w + rest == rest;
    }
  }

  /** Leading spaces are skipped. */
  lemma InitialsAfterSpaces()
    ensures Initials("  zé") == "Z"
  {
    InitialsAreWordStarts("  zé");
    assert WordStarts("  zé", true) == "z";
    assert Upper('z') == 'Z';
  }

  // ---------------------------------------------------------------------------
  // The page's state
  // ---------------------------------------------------------------------------

  class ProfilePage {
    var isEditing: bool
    var formData: ProfileForm

    constructor ()
      ensures !isEditing && formData == ProfileForm("", "", "", "", "")
    {
      isEditing := false;
      formData := ProfileForm("", "", "", "", "");
    }

    /** The effect that fills the form once both the profile and the user are known. */
    method ProfileLoaded(profile: Option<Profile>, email: Option<string>, hasUser: bool)
      modifies this`formData
      ensures profile.Some? && hasUser ==> formData == FormFromProfile(profile.value, email)
      ensures !(profile.Some? && hasUser) ==> formData == old(formData)
    {
      if profile.Some? && hasUser {
        formData := FormFromProfile(profile.value, email);
      }
    }

    method HandleInputChange(field: Field, value: string)
      modifies this`formData
      ensures formData == Set(old(formData), field, value)
    {
      formData := Set(formData, field, value);
    }

    /** `handleFileChange`: a rejected (or missing) file changes nothing and is not
        uploaded; an accepted one is uploaded, and a non-empty URL coming back becomes the
        avatar, the rest of the form unchanged. */
    method HandleFileChange(file: Option<FileInfo>, uploadedUrl: Option<string>) returns (check: AvatarCheck, uploaded: bool)
      modifies this`formData
      ensures check == CheckFile(file)
      ensures uploaded <==> check == Accepted
      ensures check == Accepted && uploadedUrl.Some? && uploadedUrl.value != "" ==> formData == old(formData).(avatar := uploadedUrl.value)
      ensures !(check == Accepted && uploadedUrl.Some? && uploadedUrl.value != "") ==> formData == old(formData)
    {
      check := CheckFile(file);
      uploaded := false;
      if check != Accepted {
        return;
      }
      uploaded := true;
      if uploadedUrl.Some? && uploadedUrl.value != "" {
        formData := formData.(avatar := uploadedUrl.value);
      }
    }

    /** `handleSave`: without a profile nothing is sent; otherwise the form is sent and the
        page leaves edit mode only if the update succeeded. */
    method HandleSave(hasProfile: bool, succeeded: bool) returns (sent: Option<ProfileUpdate>)
      modifies this`isEditing
      ensures !hasProfile ==> sent == None && isEditing == old(isEditing)
      ensures hasProfile ==> sent == Some(UpdateOf(formData))
      ensures hasProfile ==> isEditing == (old(isEditing) && !succeeded)
    {
      if !hasProfile {
        return None;
      }
      sent := Some(UpdateOf(formData));
      if succeeded {
        isEditing := false;
      }
    }

    /** `handleCancel`: leaves edit mode and, when the profile and user are known, puts the
        stored values back. */
    method HandleCancel(profile: Option<Profile>, email: Option<string>, hasUser: bool)
      modifies this
      ensures !isEditing
      ensures profile.Some? && hasUser ==> formData == FormFromProfile(profile.value, email)
      ensures !(profile.Some? && hasUser) ==> formData == old(formData)
    {
      isEditing := false;
      if profile.Some? && hasUser {
        formData := FormFromProfile(profile.value, email);
      }
    }
  }
}
