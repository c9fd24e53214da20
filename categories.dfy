/** The category form, used both to add a category and to edit one. Name
    and description are required (white space alone does not count), an
    image URL is optional but must start with `http://` or `https://`. The
    form sends nothing while an error remains, and editing a field clears
    that field's error only. */
module Categories {
  import opened Wrappers
  import opened Text
  import opened Requests

  datatype CategoryErrors = CategoryErrors(name: Option<string>, description: Option<string>,
                                           image: Option<string>)

  datatype CategoryPayload = CategoryPayload(name: string, description: string, image: Option<string>)

  type CategoryRequest = Request<CategoryPayload>

  const NameRequired: string := "Name is required"
  const DescriptionRequired: string := "Description is required"
  const InvalidImage: string := "Enter a valid image URL"
  const CategoriesPage: string := "/dashboard/categories"

  const NoErrors: CategoryErrors := CategoryErrors(None, None, None)

  /* ---------------- the image URL rule ---------------- */

  /** `s` begins with `scheme` in any letter case and has one more
      character after it that is not a line break (what `.` needs). */
  predicate HasScheme(s: string, scheme: string) {
    |s| > |scheme| && ToLower(s[..|scheme|]) == scheme && !IsLineTerminator(s[|scheme|])
  }

  /** `/^https?:\/\/.+/i.test(s)`. */
  predicate IsValidImageUrl(s: string) {
    HasScheme(s, "http://") || HasScheme(s, "https://")
  }

  lemma ToLowerPrefix(s: string, k: nat)
    requires k <= |s|
    ensures ToLower(s)[..k] == ToLower(s[..k])
  {
  }

  /** Lower-casing never creates nor removes a line break. */
  lemma LowerCharLineTerminator(c: char)
    ensures IsLineTerminator(LowerChar(c)) == IsLineTerminator(c)
  {
  }

  /** Whether `s` begins with a scheme does not depend on the letter case
      of `s`. */
  lemma HasSchemeIgnoresCase(s: string, scheme: string)
    ensures HasScheme(ToLower(s), scheme) == HasScheme(s, scheme)
  {
    if |s| > |scheme| {
      ToLowerPrefix(s, |scheme|);
      ToLowerIdempotent(s[..|scheme|]);
      LowerCharLineTerminator(s[|scheme|]);
    }
  }

  /** The rule ignores letter case everywhere in the URL. */
  lemma ImageUrlIgnoresCase(s: string)
    ensures IsValidImageUrl(ToLower(s)) == IsValidImageUrl(s)
  {
    var http, https := "http://", "https://";
    HasSchemeIgnoresCase(s, http);
    HasSchemeIgnoresCase(s, https);
  }

  /** A capital-free scheme followed by anything that starts with a
      character other than a line break. */
  lemma SchemeAccepted(scheme: string, rest: string)
    requires forall i :: 0 <= i < |scheme| ==> !('A' <= scheme[i] <= 'Z')
    requires |rest| > 0 && !IsLineTerminator(rest[0])
    ensures HasScheme(scheme + rest, scheme)
  {
    var s := scheme + rest;
    assert s[..|scheme|] == scheme;
    assert s[|scheme|] == rest[0];
    ToLowerFixesLower(scheme);
  }

  /** Either scheme followed by at least one character that is not a line
      break is accepted (in any letter case, by `ImageUrlIgnoresCase`). */
  lemma ImageUrlAccepted(rest: string)
    requires |rest| > 0 && !IsLineTerminator(rest[0])
    ensures IsValidImageUrl("http://" + rest) && IsValidImageUrl("https://" + rest)
  {
    var http, https := "http://", "https://";
    assert http[0] == 'h' && https[0] == 'h';
    SchemeAccepted(http, rest);
    SchemeAccepted(https, rest);
  }

  /** Another scheme, a scheme with nothing after it, and a line break
      right after the scheme are refused. */
  lemma ImageUrlRefused()
    ensures !IsValidImageUrl("ftp://a") && !IsValidImageUrl("http://") && !IsValidImageUrl("http://\nx")
  {
    assert !IsValidImageUrl("ftp://a") by {
      assert "ftp://a"[..7] == "ftp://a";
      ToLowerFixesLower("ftp://a");
    }
    assert "http://\nx"[7] == '\n';
  }

  /* ---------------- validation ---------------- */

  /** `validateForm`'s error object, built one condition at a time. */
  method CollectErrors(name: string, description: string, image: string)
    returns (errors: CategoryErrors)
    ensures errors.name == if IsBlank(name) then Some(NameRequired) else None
    ensures errors.description == if IsBlank(description) then Some(DescriptionRequired) else None
    ensures errors.image == if image != "" && !IsValidImageUrl(image) then Some(InvalidImage) else None
  {
    TrimEmptyIffBlank(name);
    TrimEmptyIffBlank(description);
    errors := NoErrors;
    if Trim(name) == "" {
      errors := errors.(name := Some(NameRequired));
    }
    if Trim(description) == "" {
      errors := errors.(description := Some(DescriptionRequired));
    }
    if image != "" && !IsValidImageUrl(image) {
      errors := errors.(image := Some(InvalidImage));
    }
  }

  /* ---------------- submission ---------------- */

  /** The body sent to the service: name and description always, the image
      only when one was entered. */
  function PayloadFor(name: string, description: string, image: string): (p: CategoryPayload)
    ensures p.name == name && p.description == description
    ensures p.image.Some? <==> image != ""
    ensures p.image.Some? ==> p.image.value == image
  {
    CategoryPayload(name, description, if image != "" then Some(image) else None)
  }

  class CategoryForm {
    const categoryId: Option<string>
    var name: string
    var description: string
    var image: string
    var errors: CategoryErrors
    var title: string

    /** The form as it first renders: empty fields, no errors, and the title
        chosen by whether a category is being edited. */
    constructor (categoryId: Option<string>)
      ensures this.categoryId == categoryId
      ensures name == "" && description == "" && image == "" && errors == NoErrors
      ensures title == if categoryId.Some? && categoryId.value != "" then "Edit Category" else "Add Category"
    {
      this.categoryId := categoryId;
      name, description, image, errors := "", "", "", NoErrors;
      title := if categoryId.Some? && categoryId.value != "" then "Edit Category" else "Add Category";
    }

    /** The edited category's name and description once fetched (a missing
        description becomes ""); a failed fetch changes nothing. */
    method LoadCategory(fetched: Option<(string, Option<string>)>)
      modifies this`name, this`description
      ensures if categoryId.Some? && categoryId.value != "" && fetched.Some?
        then name == fetched.value.0
             && description == (if fetched.value.1.Some? then fetched.value.1.value else "")
        else name == old(name) && description == old(description)
    {
      if !(categoryId.Some? && categoryId.value != "") || fetched.None? {
        return;
      }
      name := fetched.value.0;
      description := if fetched.value.1.Some? then fetched.value.1.value else "";
    }

    method OnNameChange(value: string)
      modifies this`name, this`errors
      ensures name == value && errors == old(errors).(name := None)
    {
      name := value;
      errors := errors.(name := None);
    }

    method OnImageChange(value: string)
      modifies this`image, this`errors
      ensures image == value && errors == old(errors).(image := None)
    {
      image := value;
      errors := errors.(image := None);
    }

    method OnDescriptionChange(value: string)
      modifies this`description, this`errors
      ensures description == value && errors == old(errors).(description := None)
    {
      description := value;
      errors := errors.(description := None);
    }

    /** `validateForm`: replaces the errors and reports whether none remain. */
    method ValidateForm() returns (ok: bool)
      modifies this`errors
      ensures errors.name == if IsBlank(name) then Some(NameRequired) else None
      ensures errors.description == if IsBlank(description) then Some(DescriptionRequired) else None
      ensures errors.image == if image != "" && !IsValidImageUrl(image) then Some(InvalidImage) else None
      ensures ok <==> errors == NoErrors
    {
      errors := CollectErrors(name, description, image);
      ok := errors == NoErrors;
    }

    /** `handleSubmit`: an invalid form sends nothing; a valid one sends one
        create or update request and, when the service accepts it, goes back
        to the category list. */
    method HandleSubmit(serviceOk: bool) returns (request: Option<CategoryRequest>, navigateTo: Option<string>)
      modifies this`errors
      ensures errors.name == if IsBlank(name) then Some(NameRequired) else None
      ensures errors.description == if IsBlank(description) then Some(DescriptionRequired) else None
      ensures errors.image == if image != "" && !IsValidImageUrl(image) then Some(InvalidImage) else None
      ensures request.Some? <==> errors == NoErrors
      ensures request.Some? ==> request.value == RequestFor(categoryId, PayloadFor(name, description, image))
      ensures navigateTo == if request.Some? && serviceOk then Some(CategoriesPage) else None
    {
      var ok := ValidateForm();
      if !ok {
        return None, None;
      }
      request := Some(RequestFor(categoryId, PayloadFor(name, description, image)));
      navigateTo := if serviceOk then Some(CategoriesPage) else None;
    }
  }
}
