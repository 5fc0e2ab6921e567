/**
 * The student's own profile page: loading the profile into the form, saving
 * the editable fields, and the initials shown in the avatar.
 */
module StudentProfile {
  import opened Wrappers
  import opened Text
  import opened Seqs

  predicate NonEmpty(w: string) {
    w != ""
  }

  /**
   * `words.map(n => n[0]).join('')`: an empty word has no first character and
   * contributes nothing to the join.
   */
  function FirstChars(words: seq<string>): (r: string)
    ensures |r| == |Filter(NonEmpty, words)|
    ensures forall k :: 0 <= k < |r| ==> Filter(NonEmpty, words)[k] != "" && r[k] == Filter(NonEmpty, words)[k][0]
  {
    if words == [] then ""
    else
      var rest := FirstChars(words[1..]);
      assert Filter(NonEmpty, words) == if words[0] == "" then Filter(NonEmpty, words[1..])
                                        else [words[0]] + Filter(NonEmpty, words[1..]);
      if words[0] == "" then rest else [words[0][0]] + rest
  }

  /**
   * The avatar initials: the upper-cased first characters of the
   * space-separated words of the name, cut to the first two.
   */
  function Initials(name: string): (r: string)
    ensures var heads := FirstChars(Split(name, ' '));
            |r| == (if |heads| < 2 then |heads| else 2) && r == Upper(heads)[..|r|]
  {
    var heads := Upper(FirstChars(Split(name, ' ')));
    if |heads| < 2 then heads else heads[..2]
  }

  /**
   * Each initial is the upper-cased first character of a word of the name,
   * the `k`-th initial coming from the `k`-th non-empty word; no initial is a
   * lower-case letter.
   */
  lemma InitialsAreWordHeads(name: string, k: nat)
    requires k < |Initials(name)|
    ensures var word := Filter(NonEmpty, Split(name, ' '))[k];
            word != "" && ' ' !in word && Initials(name)[k] == UpperChar(word[0])
    ensures |Initials(name)| <= 2 && !('a' <= Initials(name)[k] <= 'z')
  {
    var words := Filter(NonEmpty, Split(name, ' '));
    assert words[k] in words;
  }

  /** Runs of spaces and spaces at either end do not change the initials. */
  lemma {:induction false} EmptyWordsIgnored(words: seq<string>)
    ensures FirstChars(words) == FirstChars(Filter(NonEmpty, words))
  {
    FilterIdempotent(NonEmpty, words);
    var a, b := FirstChars(words), FirstChars(Filter(NonEmpty, words));
    assert |a| == |b|;
  }

  /** `null` fields read as the empty string, as `value || ''` does. */
  function OrEmpty(o: Option<string>): string {
    o.GetOr("")
  }

  datatype ProfileData = ProfileData(id: string, name: Option<string>, email: Option<string>,
                                     avatarUrl: Option<string>, bio: Option<string>)

  datatype FormData = FormData(name: string, email: string, bio: string)

  /** The form loaded from a profile: each field its value, or `''` when it is null. */
  function FormOf(p: ProfileData): (f: FormData)
    ensures p.name.Some? ==> f.name == p.name.value
    ensures p.email.Some? ==> f.email == p.email.value
    ensures p.bio.Some? ==> f.bio == p.bio.value
    ensures p.name.None? ==> f.name == ""
    ensures p.email.None? ==> f.email == ""
    ensures p.bio.None? ==> f.bio == ""
  {
    FormData(OrEmpty(p.name), OrEmpty(p.email), OrEmpty(p.bio))
  }

  /** The error a profile query reports, with its PostgREST code. */
  datatype QueryError = QueryError(code: string)

  /** "The result contains 0 rows": a missing profile row, which the page does not count as a failure. */
  const NoRowsCode := "PGRST116"

  const LoginMessage := "Please log in to view your profile."
  const LoadFailure := "Failed to load profile. Please try again later."
  const SaveFailure := "Failed to save profile. Please try again later."

  /** What `handleSaveProfile` sends: the name and the bio, never the e-mail. */
  datatype ProfileUpdate = ProfileUpdate(id: string, name: string, bio: string)

  class ProfilePage {
    var profile: Option<ProfileData>
    var form: FormData
    var loading: bool
    var saving: bool
    var success: bool
    var error: Option<string>
    var updates: seq<ProfileUpdate>

    constructor()
      ensures profile == None && form == FormData("", "", "") && loading && !saving && !success
      ensures error == None && updates == []
    {
      profile := None;
      form := FormData("", "", "");
      loading := true;
      saving := false;
      success := false;
      error := None;
      updates := [];
    }

    /**
     * `loadProfile`. `userId` is the signed-in user's id (`None` when the auth
     * call fails or there is no user); `data` and `queryError` are the profile
     * query's result and error. A missing user asks to log in; a query error
     * other than "no rows" is a load failure; a returned row becomes the
     * profile and fills the form. Loading ends in every case.
     */
    method LoadProfile(userId: Option<string>, data: Option<ProfileData>, queryError: Option<QueryError>)
      modifies this
      ensures !loading && saving == old(saving) && success == old(success) && updates == old(updates)
      ensures userId.None? ==> error == Some(LoginMessage) && profile == old(profile) && form == old(form)
      ensures userId.Some? && queryError.Some? && queryError.value.code != NoRowsCode ==>
                error == Some(LoadFailure) && profile == old(profile) && form == old(form)
      ensures userId.Some? && (queryError.None? || queryError.value.code == NoRowsCode) ==>
                error == None
                && (data.Some? ==> profile == data && form == FormOf(data.value))
                && (data.None? ==> profile == old(profile) && form == old(form))
    {
      loading := true;
      error := None;
      if userId.None? {
        error := Some(LoginMessage);
        loading := false;
        return;
      }
      if queryError.Some? && queryError.value.code != NoRowsCode {
        error := Some(LoadFailure);
      } else if data.Some? {
        profile := data;
        form := FormData(if data.value.name.Some? then data.value.name.value else "",
                         if data.value.email.Some? then data.value.email.value else "",
                         if data.value.bio.Some? then data.value.bio.value else "");
      }
      loading := false;
    }

    /** Editing the form fields. */
    method EditForm(name: string, bio: string)
      modifies this
      ensures form == old(form).(name := name, bio := bio)
      ensures profile == old(profile) && updates == old(updates) && error == old(error)
      ensures loading == old(loading) && saving == old(saving) && success == old(success)
    {
      form := form.(name := name, bio := bio);
    }

    /**
     * `handleSaveProfile`: with no profile nothing happens. Otherwise the
     * name and bio are sent for the profile's id; on success the profile takes
     * the new name and bio and keeps its id, e-mail and avatar; on failure the
     * profile is unchanged and the error is set; `saving` ends false.
     */
    method SaveProfile(updateError: Option<string>)
      modifies this
      ensures old(profile).None? ==>
                profile == old(profile) && updates == old(updates) && error == old(error)
                && saving == old(saving) && success == old(success)
      ensures old(profile).Some? ==>
                && updates == old(updates) + [ProfileUpdate(old(profile).value.id, form.name, form.bio)]
                && !saving
                && (updateError.None? ==>
                      profile == Some(old(profile).value.(name := Some(form.name), bio := Some(form.bio)))
                      && success && error == None)
                && (updateError.Some? ==> profile == old(profile) && !success && error == Some(SaveFailure))
      ensures form == old(form) && loading == old(loading)
    {
      if profile.None? {
        return;
      }
      saving := true;
      error := None;
      success := false;
      var p := profile.value;
      updates := updates + [ProfileUpdate(p.id, form.name, form.bio)];
      if updateError.Some? {
        error := Some(SaveFailure);
      } else {
        profile := Some(p.(name := Some(form.name), bio := Some(form.bio)));
        success := true;
      }
      saving := false;
    }
  }
}
