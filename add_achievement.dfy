/**
 * The student's "add achievement" form: the attached-documents list with its
 * upload rules (at most 5 files, each at most 10 MB) and index removal, the
 * required-field check on submit, and the category colour table.
 *
 * A `File` is reduced to its name and size in bytes.
 */
module AddAchievement {
  import opened Seqs
  import opened Ui

  datatype Upload = Upload(name: string, size: nat)

  const MaxFiles: nat := 5
  const MaxSize: nat := 10 * 1024 * 1024

  /** A file passes the upload filter iff it is no larger than 10 MB. */
  predicate Acceptable(f: Upload) {
    f.size <= MaxSize
  }

  /** One "File too large" toast per rejected file, in the order of the files. */
  function TooLargeToasts(files: seq<Upload>): (r: seq<Effect>)
    ensures forall e :: e in r ==> e == Toast("File too large")
  {
    if files == [] then []
    else TooLargeToasts(files[..|files| - 1]) +
         if Acceptable(files[|files| - 1]) then [] else [Toast("File too large")]
  }

  /** Every chosen file is either accepted or reported as too large. */
  lemma {:induction false} EachFileAcceptedOrReported(files: seq<Upload>)
    ensures |Filter(Acceptable, files)| + |TooLargeToasts(files)| == |files|
  {
    if files != [] {
      var init, last := files[..|files| - 1], files[|files| - 1];
      assert files == init + [last];
      FilterAppend(Acceptable, init, [last]);
      EachFileAcceptedOrReported(init);
    }
  }

  /** How the accepted files and the toasts grow by one more file. */
  lemma UploadStep(files: seq<Upload>, i: nat)
    requires i < |files|
    ensures Filter(Acceptable, files[..i + 1]) ==
            Filter(Acceptable, files[..i]) + if Acceptable(files[i]) then [files[i]] else []
    ensures TooLargeToasts(files[..i + 1]) ==
            TooLargeToasts(files[..i]) + if Acceptable(files[i]) then [] else [Toast("File too large")]
  {
    PrefixExtend(files, i);
    assert files[..i + 1][..i] == files[..i];
    FilterAppend(Acceptable, files[..i], [files[i]]);
  }

  /**
   * The `files.filter` callback of `handleFileUpload`: keeps the files of at
   * most 10 MB in their order and issues a toast for each larger one.
   */
  method SelectFiles(files: seq<Upload>) returns (validFiles: seq<Upload>, toasts: seq<Effect>)
    ensures validFiles == Filter(Acceptable, files)
    ensures toasts == TooLargeToasts(files)
  {
    validFiles, toasts := [], [];
    var i := 0;
    while i < |files|
      invariant 0 <= i <= |files|
      invariant validFiles == Filter(Acceptable, files[..i])
      invariant toasts == TooLargeToasts(files[..i])
    {
      var file := files[i];
      UploadStep(files, i);
      if file.size > MaxSize {
        toasts := toasts + [Toast("File too large")];
      } else {
        validFiles := validFiles + [file];
      }
      i := i + 1;
    }
    WholePrefix(files);
  }

  /** The upload adds the accepted files only if the total stays within 5. */
  predicate FitsLimit(current: seq<Upload>, accepted: seq<Upload>) {
    |current| + |accepted| <= MaxFiles
  }

  /**
   * `documents.filter((_, i) => i !== index)`: exactly the element at a valid
   * `index` is removed, the rest keep their order; any other index changes
   * nothing.
   */
  function WithoutIndex<T>(s: seq<T>, index: int): (r: seq<T>)
    ensures 0 <= index < |s| ==> r == s[..index] + s[index + 1..]
    ensures !(0 <= index < |s|) ==> r == s
  {
    if s == [] then []
    else
      var rest := WithoutIndex(s[1..], index - 1);
      if index == 0 then rest
      else
        assert 0 < index < |s| ==> s[..index] == [s[0]] + s[1..][..index - 1];
        assert s == [s[0]] + s[1..];
        [s[0]] + rest
  }

  /** Removing never lengthens the list, so the 5-file bound survives it. */
  lemma RemovePreservesLimit<T>(s: seq<T>, index: int)
    requires |s| <= MaxFiles
    ensures |WithoutIndex(s, index)| <= MaxFiles
  {
  }

  datatype AchievementForm = AchievementForm(title: string, category: string, date: string,
                                             description: string, documents: seq<Upload>)

  const EmptyForm := AchievementForm("", "", "", "", [])

  /** The submit guard: some required text field is empty. Documents are not required. */
  predicate MissingRequired(form: AchievementForm) {
    form.title == "" || form.category == "" || form.date == "" || form.description == ""
  }

  const CategoryValues: seq<string> :=
    ["academic", "cocurricular", "extracurricular", "certification", "internship", "volunteering", "leadership"]

  /**
   * `getCategoryColor`: the border and tint classes named after one of the
   * seven categories, and `''` for anything else.
   */
  function CategoryColor(category: string): (c: string)
    ensures c == "" <==> category !in CategoryValues
  {
    match category
    case "academic" => "border-academic bg-academic/5"
    case "cocurricular" => "border-cocurricular bg-cocurricular/5"
    case "extracurricular" => "border-extracurricular bg-extracurricular/5"
    case "certification" => "border-certification bg-certification/5"
    case "internship" => "border-internship bg-internship/5"
    case "volunteering" => "border-volunteering bg-volunteering/5"
    case "leadership" => "border-leadership bg-leadership/5"
    case _ => ""
  }

  const ListRoute := "/student/achievements"

  /** The page state: the form, the submitting flag and the toasts and redirects issued. */
  class AddAchievementPage {
    var form: AchievementForm
    var isSubmitting: bool
    var effects: seq<Effect>

    constructor()
      ensures form == EmptyForm && !isSubmitting && effects == []
    {
      form := EmptyForm;
      isSubmitting := false;
      effects := [];
    }

    /** Typing into the text fields. */
    method EnterDetails(title: string, category: string, date: string, description: string)
      modifies this
      ensures form == old(form).(title := title, category := category, date := date, description := description)
      ensures isSubmitting == old(isSubmitting) && effects == old(effects)
    {
      form := form.(title := title, category := category, date := date, description := description);
    }

    /**
     * `handleFileUpload`: files over 10 MB are dropped with a toast each; if
     * the accepted files would take the list past 5 the list is left as it
     * was (acceptable files included) with a "Too many files" toast;
     * otherwise the accepted files are appended in their original order.
     */
    method HandleFileUpload(files: seq<Upload>)
      modifies this
      ensures var accepted := Filter(Acceptable, files);
              && (FitsLimit(old(form.documents), accepted) ==>
                    form == old(form).(documents := old(form.documents) + accepted)
                    && effects == old(effects) + TooLargeToasts(files))
              && (!FitsLimit(old(form.documents), accepted) ==>
                    form == old(form)
                    && effects == old(effects) + TooLargeToasts(files) + [Toast("Too many files")])
      ensures |old(form.documents)| <= MaxFiles ==> |form.documents| <= MaxFiles
      ensures forall d :: d in form.documents ==> d in old(form.documents) || (d in files && Acceptable(d))
      ensures isSubmitting == old(isSubmitting)
    {
      var validFiles, toasts := SelectFiles(files);
      effects := effects + toasts;
      if |form.documents| + |validFiles| > MaxFiles {
        effects := effects + [Toast("Too many files")];
        return;
      }
      form := form.(documents := form.documents + validFiles);
    }

    /** `removeFile`: drops the document at `index`, if there is one. */
    method RemoveFile(index: int)
      modifies this
      ensures form == old(form).(documents := WithoutIndex(old(form.documents), index))
      ensures isSubmitting == old(isSubmitting) && effects == old(effects)
    {
      form := form.(documents := WithoutIndex(form.documents, index));
    }

    /**
     * `handleSubmit`: with a required field empty only a toast is shown;
     * otherwise the (simulated) submission ends with the flag cleared, a
     * success toast and a redirect to the achievements list.
     */
    method HandleSubmit()
      modifies this
      ensures form == old(form)
      ensures MissingRequired(form) ==>
                isSubmitting == old(isSubmitting) && effects == old(effects) + [Toast("Missing required fields")]
      ensures !MissingRequired(form) ==>
                !isSubmitting && effects == old(effects) + [Toast("Achievement submitted!"), Navigate(ListRoute)]
    {
      if form.title == "" || form.category == "" || form.date == "" || form.description == "" {
        effects := effects + [Toast("Missing required fields")];
        return;
      }
      isSubmitting := true;
      effects := effects + [Toast("Achievement submitted!")];
      isSubmitting := false;
      effects := effects + [Navigate(ListRoute)];
    }
  }
}
