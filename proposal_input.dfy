/**
 * The proposal submission form: two text fields, a title and a description,
 * each checked by an ordered chain of rules (blank, too short, too long), a
 * stored error record, a guarded submit that hands the trimmed values on, and
 * a reset.
 *
 * The blank check looks at the trimmed text while the length checks look at
 * the raw text, so surrounding whitespace counts towards the minimum length.
 */
module ProposalForm {
  import opened Wrappers
  import opened JsString

  /** The bounds and the three messages of one field's rule chain. */
  datatype FieldRules = FieldRules(minLength: nat, maxLength: nat, required: string, tooShort: string, tooLong: string)

  const TitleRules := FieldRules(
    10, 200,
    "Proposal title is required",
    "Title should be at least 10 characters",
    "Title should be less than 200 characters")

  const DescriptionRules := FieldRules(
    50, 5000,
    "Proposal description is required",
    "Description should be at least 50 characters",
    "Description should be less than 5000 characters")

  /** The reference condition a field must meet: not blank, and a raw length within the inclusive bounds. */
  predicate Accepted(value: string, rules: FieldRules) {
    !IsBlank(value) && rules.minLength <= |value| <= rules.maxLength
  }

  /**
   * One field's rule chain: the first failing check gives the field's only
   * message; a field that passes all three has none.
   */
  function FieldError(value: string, rules: FieldRules): (e: Option<string>)
    ensures e.None? <==> Accepted(value, rules)
    ensures IsBlank(value) ==> e == Some(rules.required)
    ensures !IsBlank(value) && |value| < rules.minLength ==> e == Some(rules.tooShort)
    ensures !IsBlank(value) && rules.minLength <= |value| && |value| > rules.maxLength ==> e == Some(rules.tooLong)
    ensures e.Some? ==> e.value in {rules.required, rules.tooShort, rules.tooLong}
  {
    if Trim(value) == [] then Some(rules.required)
    else if |value| < rules.minLength then Some(rules.tooShort)
    else if |value| > rules.maxLength then Some(rules.tooLong)
    else None
  }

  /** The error record: at most one message per field, absent when the field is fine. */
  datatype FormErrors = FormErrors(title: Option<string>, description: Option<string>) {
    /** `Object.keys(errors).length`. */
    function KeyCount(): (n: nat)
      ensures n <= 2
      ensures n == 0 <==> title.None? && description.None?
    {
      (if title.Some? then 1 else 0) + (if description.Some? then 1 else 0)
    }
  }

  const NoErrors := FormErrors(None, None)

  /** The errors `validateForm` computes; the form is valid when both fields are accepted. */
  function Validate(title: string, description: string): (errs: FormErrors)
    ensures errs.KeyCount() == 0 <==> Accepted(title, TitleRules) && Accepted(description, DescriptionRules)
    ensures errs.title.None? <==> Accepted(title, TitleRules)
    ensures errs.description.None? <==> Accepted(description, DescriptionRules)
  {
    FormErrors(FieldError(title, TitleRules), FieldError(description, DescriptionRules))
  }

  /** A title whose trim is empty is reported as required, whatever its raw length. */
  lemma BlankTitleIsRequired(title: string, description: string)
    requires Trim(title) == []
    ensures Validate(title, description).title == Some("Proposal title is required")
  {
  }

  /**
   * A non-blank title is in error exactly when its raw length is below 10 or
   * above 200: too short wins below 10, too long above 200, and 10 and 200
   * themselves are accepted (although the too-long message says "less than 200").
   */
  lemma TitleLengthBounds(title: string, description: string)
    requires Trim(title) != []
    ensures Validate(title, description).title.Some? <==> |title| < 10 || |title| > 200
    ensures |title| < 10 ==> Validate(title, description).title == Some("Title should be at least 10 characters")
    ensures |title| > 200 ==> Validate(title, description).title == Some("Title should be less than 200 characters")
    ensures |title| == 10 || |title| == 200 ==> Validate(title, description).title.None?
  {
  }

  /** A description whose trim is empty is reported as required, whatever its raw length. */
  lemma BlankDescriptionIsRequired(title: string, description: string)
    requires Trim(description) == []
    ensures Validate(title, description).description == Some("Proposal description is required")
  {
  }

  /** The description follows the same chain with the inclusive bounds 50 and 5000 (5000 itself is accepted). */
  lemma DescriptionLengthBounds(title: string, description: string)
    requires Trim(description) != []
    ensures Validate(title, description).description.Some? <==> |description| < 50 || |description| > 5000
    ensures |description| < 50 ==>
              Validate(title, description).description == Some("Description should be at least 50 characters")
    ensures |description| > 5000 ==>
              Validate(title, description).description == Some("Description should be less than 5000 characters")
    ensures |description| == 50 || |description| == 5000 ==> Validate(title, description).description.None?
  {
  }

  /** The two fields are checked independently: changing one never changes the other's message. */
  lemma FieldsIndependent(t1: string, t2: string, d1: string, d2: string)
    ensures Validate(t1, d1).title == Validate(t1, d2).title
    ensures Validate(t1, d1).description == Validate(t2, d1).description
  {
  }

  /**
   * The raw length counts surrounding whitespace: one non-whitespace
   * character padded with nine whitespace characters is an accepted title,
   * yet the title handed on after trimming is that single character.
   */
  lemma PaddedTitleAccepted(c: char, padding: string, description: string)
    requires !IsWhitespace(c) && IsBlank(padding) && |padding| == 9
    ensures Validate([c] + padding, description).title.None?
    ensures Trim([c] + padding) == [c]
  {
    var title := [c] + padding;
    assert title[0] == c;
    assert TrimStart(title) == title;
    TrimEndIgnoresTrailingWhitespace([c], padding);
    assert TrimEnd([c]) == [c];
  }

  /** What `onSubmit` receives: the trimmed title and description. */
  datatype Submission = Submission(title: string, description: string)

  /** The trimmed value of an accepted field is non-empty, within the maximum, and has no whitespace at its ends. */
  lemma TrimmedAcceptedField(value: string, rules: FieldRules)
    requires Accepted(value, rules)
    ensures var t := Trim(value);
            0 < |t| <= rules.maxLength && !IsWhitespace(t[0]) && !IsWhitespace(t[|t| - 1])
  {
    var t := Trim(value);
    assert t != [];
    assert |t| <= |value|;
  }

  /**
   * Whatever a valid form submits is non-empty, starts and ends with a
   * non-whitespace character, and is no longer than the field's maximum.
   */
  lemma SubmissionWellFormed(title: string, description: string)
    requires Validate(title, description).KeyCount() == 0
    ensures 0 < |Trim(title)| <= 200 && 0 < |Trim(description)| <= 5000
    ensures !IsWhitespace(Trim(title)[0]) && !IsWhitespace(Trim(title)[|Trim(title)| - 1])
    ensures !IsWhitespace(Trim(description)[0]) && !IsWhitespace(Trim(description)[|Trim(description)| - 1])
  {
    TrimmedAcceptedField(title, TitleRules);
    TrimmedAcceptedField(description, DescriptionRules);
  }

  /** The state cells of the form component: the two field values and the stored errors. */
  class ProposalInput {
    var title: string
    var description: string
    var errors: FormErrors

    /** Both fields start empty with no errors shown. */
    constructor ()
      ensures title == [] && description == [] && errors == NoErrors
    {
      title, description, errors := [], [], NoErrors;
    }

    /** The title field's change handler. */
    method SetTitle(value: string)
      modifies this`title
      ensures title == value
    {
      title := value;
    }

    /** The description field's change handler. */
    method SetDescription(value: string)
      modifies this`description
      ensures description == value
    {
      description := value;
    }

    /** `validateForm`: stores the freshly computed errors and reports whether there are none. */
    method ValidateForm() returns (valid: bool)
      modifies this`errors
      ensures errors == Validate(title, description)
      ensures valid <==> Accepted(title, TitleRules) && Accepted(description, DescriptionRules)
    {
      var newErrors := NoErrors;
      newErrors := newErrors.(title := FieldError(title, TitleRules));
      newErrors := newErrors.(description := FieldError(description, DescriptionRules));
      errors := newErrors;
      valid := newErrors.KeyCount() == 0;
    }

    /**
     * `handleSubmit`: validates, and only when the form is valid hands the
     * trimmed values to `onSubmit` (returned here as the submission).
     */
    method HandleSubmit() returns (submitted: Option<Submission>)
      modifies this`errors
      ensures errors == Validate(title, description)
      ensures submitted.Some? <==> errors.KeyCount() == 0
      ensures submitted.Some? ==> submitted.value == Submission(Trim(title), Trim(description))
    {
      var valid := ValidateForm();
      if valid {
        submitted := Some(Submission(Trim(title), Trim(description)));
      } else {
        submitted := None;
      }
    }

    /** `handleReset`: empties both fields and clears every error. */
    method HandleReset()
      modifies this
      ensures title == [] && description == [] && errors == NoErrors
    {
      title := [];
      description := [];
      errors := NoErrors;
    }

    /** The submit button is disabled while loading or while either field is blank. */
    function SubmitDisabled(loading: bool): (disabled: bool)
      reads this
      ensures disabled <==> loading || IsBlank(title) || IsBlank(description)
      ensures !disabled ==> Validate(title, description).title != Some(TitleRules.required)
      ensures !disabled ==> Validate(title, description).description != Some(DescriptionRules.required)
    {
      loading || Trim(title) == [] || Trim(description) == []
    }
  }
}
