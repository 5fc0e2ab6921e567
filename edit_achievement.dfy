/**
 * The student's edit form: the validation schema, loading the record with
 * its lock check, and submitting the edited details.
 */
module EditAchievement {
  import opened Wrappers
  import opened Achievements
  import opened Ui
  import AchievementsList

  /**
   * The value of an optional form field: never set, null (as `form.reset`
   * copies it from a record whose column is null) or a string.
   */
  datatype FieldValue = Unset | Null | Given(text: string)

  /** The form fields; `description` and `fileUrl` are optional in the schema. */
  datatype FormValues = FormValues(title: string, description: FieldValue, category: string,
                                   fileUrl: FieldValue)

  /** The form's `defaultValues`: every field the empty string. */
  const EmptyForm := FormValues("", Given(""), "", Given(""))

  /** zod's message for a null where `z.string()` expects a string. */
  const NullMessage := "Expected string, received null"

  /** `z.string().optional()`: an unset field or a string passes, null does not. */
  function OptionalString(f: FieldValue): (errors: seq<string>)
    ensures errors == [] <==> !f.Null?
  {
    if f.Null? then [NullMessage] else []
  }

  /**
   * `achievementSchema`: the messages of the failed checks, in field order.
   * Title and category must be non-empty (a single space counts);
   * description and file URL may be unset or any string, but not null.
   */
  function Validate(v: FormValues): (errors: seq<string>)
    ensures errors == [] <==> |v.title| >= 1 && |v.category| >= 1 && !v.description.Null? && !v.fileUrl.Null?
    ensures "Title is required" in errors <==> v.title == ""
    ensures "Category is required" in errors <==> v.category == ""
    ensures NullMessage in errors <==> v.description.Null? || v.fileUrl.Null?
    ensures |errors| <= 4
  {
    (if |v.title| < 1 then ["Title is required"] else [])
    + OptionalString(v.description)
    + (if |v.category| < 1 then ["Category is required"] else [])
    + OptionalString(v.fileUrl)
  }

  /**
   * The contents of the optional fields never matter, only whether they are
   * null: any non-null values validate like unset ones, and a null fails.
   */
  lemma ValidationIgnoresOptional(v: FormValues, d: FieldValue, u: FieldValue)
    ensures !d.Null? && !u.Null? ==>
              Validate(v.(description := d, fileUrl := u)) == Validate(v.(description := Unset, fileUrl := Unset))
    ensures d.Null? || u.Null? ==> Validate(v.(description := d, fileUrl := u)) != []
  {
  }

  /** A nullable column as `form.reset` puts it into the form. */
  function FieldOf(column: Option<string>): (f: FieldValue)
    ensures f.Null? <==> column.None?
    ensures column.Some? ==> f == Given(column.value)
  {
    match column
    case None => Null
    case Some(text) => Given(text)
  }

  /** `form.reset(achievement)`: the form takes the record's own content fields. */
  function FormOf(a: Achievement): (v: FormValues)
    ensures v.title == a.title && v.category == a.category
    ensures v.description == FieldOf(a.description) && v.fileUrl == FieldOf(a.fileUrl)
  {
    FormValues(a.title, FieldOf(a.description), a.category, FieldOf(a.fileUrl))
  }

  /**
   * A loaded record passes validation iff its title and category are
   * non-empty and neither its description nor its file URL is null; the
   * page has no input for the file URL, so a null there is never cleared.
   */
  lemma {:induction false} LoadedRecordValid(a: Achievement)
    ensures Validate(FormOf(a)) == [] <==>
              a.title != "" && a.category != "" && a.description.Some? && a.fileUrl.Some?
  {
    var v := FormOf(a);
    assert v.description.Null? <==> a.description.None?;
    assert v.fileUrl.Null? <==> a.fileUrl.None?;
  }

  /** `achievements.find(a => a.id === id)`: the position of the first record with that id. */
  function FindById(achievements: seq<Achievement>, id: string): (r: Option<nat>)
    ensures r.None? <==> forall a :: a in achievements ==> a.id != id
    ensures r.Some? ==> r.value < |achievements| && achievements[r.value].id == id
    ensures r.Some? ==> forall j :: 0 <= j < r.value ==> achievements[j].id != id
  {
    if achievements == [] then None
    else if achievements[0].id == id then Some(0)
    else
      var r := FindById(achievements[1..], id);
      assert forall a :: a in achievements[1..] ==> a in achievements;
      assert forall a :: a in achievements ==> a == achievements[0] || a in achievements[1..];
      if r.None? then None else Some(r.value + 1)
  }

  /** One call to `updateAchievementDetails`. */
  datatype DetailsUpdate = DetailsUpdate(id: string, values: FormValues)

  const ListRoute := "/student/achievements"

  class EditPage {
    /** The `:id` route parameter. */
    const id: Option<string>
    var achievement: Option<Achievement>
    var form: FormValues
    var updates: seq<DetailsUpdate>
    var effects: seq<Effect>

    constructor (id: Option<string>)
      ensures this.id == id && achievement == None && form == EmptyForm
      ensures updates == [] && effects == []
    {
      this.id := id;
      achievement := None;
      form := EmptyForm;
      updates := [];
      effects := [];
    }

    /**
     * `fetchAchievement` given what `getAchievements` delivered. Without an
     * id, or when the fetch fails, nothing changes. An unknown id shows "Error"
     * and returns to the list. A found record is stored and loaded into the
     * form; if it is neither pending nor rejected the page also shows "Cannot
     * Edit" and returns to the list, but, as the lock branch does not return,
     * it still stores the record and fills the form.
     */
    method FetchAchievement(fetched: Result<seq<Achievement>, string>)
      modifies this
      ensures updates == old(updates)
      ensures (id.None? || fetched.Failure?) ==>
                achievement == old(achievement) && form == old(form) && effects == old(effects)
      ensures id.Some? && fetched.Success? && FindById(fetched.value, id.value).None? ==>
                && achievement == old(achievement) && form == old(form)
                && effects == old(effects) + [Toast("Error"), Navigate(ListRoute)]
      ensures id.Some? && fetched.Success? && FindById(fetched.value, id.value).Some? ==>
                var a := fetched.value[FindById(fetched.value, id.value).value];
                && achievement == Some(a) && form == FormOf(a)
                && effects == old(effects) +
                     if AchievementsList.CanEdit(a.status) then [] else [Toast("Cannot Edit"), Navigate(ListRoute)]
    {
      if id.None? {
        return;
      }
      if fetched.Failure? {
        return;
      }
      var found := FindById(fetched.value, id.value);
      if found.Some? {
        var current := fetched.value[found.value];
        if current.status != "pending" && current.status != "rejected" {
          effects := effects + [Toast("Cannot Edit"), Navigate(ListRoute)];
        }
        achievement := Some(current);
        form := FormOf(current);
      } else {
        effects := effects + [Toast("Error"), Navigate(ListRoute)];
      }
    }

    /** The student types into the title, description and category inputs. */
    method EnterValues(title: string, description: string, category: string)
      modifies this`form
      ensures form == old(form).(title := title, description := Given(description), category := category)
    {
      form := form.(title := title, description := Given(description), category := category);
    }

    /**
     * `form.handleSubmit(onSubmit)`: invalid values send nothing; valid values
     * are sent for the route id as they are, whatever the record's status is
     * by now; success shows "Success" and returns to the list, failure shows
     * "Error" and stays.
     */
    method Submit(serverError: Option<string>)
      modifies this
      ensures achievement == old(achievement) && form == old(form)
      ensures (Validate(form) != [] || id.None?) ==> updates == old(updates) && effects == old(effects)
      ensures Validate(form) == [] && id.Some? ==>
                && updates == old(updates) + [DetailsUpdate(id.value, form)]
                && effects == old(effects) +
                     if serverError.None? then [Toast("Success"), Navigate(ListRoute)] else [Toast("Error")]
    {
      if Validate(form) != [] {
        return;
      }
      if id.None? {
        return;
      }
      updates := updates + [DetailsUpdate(id.value, form)];
      if serverError.None? {
        effects := effects + [Toast("Success"), Navigate(ListRoute)];
      } else {
        effects := effects + [Toast("Error")];
      }
    }
  }
}
