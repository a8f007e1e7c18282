/**
 * The account registration page: a nested form (the `location` group), two password checks
 * in a fixed order, and the payload sent to `register` without the confirmation field.
 */
module AuthRegister {
  import opened Wrappers
  import opened Text
  import opened AuthContext

  /** A form value: a plain string, or the `location` group of strings. */
  datatype FieldValue = Str(s: string) | Nested(fields: map<string, string>)

  type Form = map<string, FieldValue>

  const InitialForm: Form := map[
    "name" := Str(""), "email" := Str(""), "phone" := Str(""),
    "password" := Str(""), "confirmPassword" := Str(""), "role" := Str("farmer"),
    "location" := Nested(map["state" := "", "district" := "", "village" := ""]),
    "language" := Str("en")]

  /** The shape the handlers rely on: string passwords and a `location` group. */
  predicate WellFormed(d: Form) {
    && "password" in d && d["password"].Str?
    && "confirmPassword" in d && d["confirmPassword"].Str?
    && "location" in d && d["location"].Nested?
  }

  const PasswordTooShort := "Password must be at least 6 characters long"

  datatype Submission = Rejected(message: string) | Accepted(payload: Form)

  /** `handleSubmit`'s checks: the passwords must match, then be at least 6 characters long. */
  function CheckSubmission(d: Form): (r: Submission)
    requires WellFormed(d)
    ensures d["password"] != d["confirmPassword"] ==> r == Rejected(PasswordsDiffer)
    ensures d["password"] == d["confirmPassword"] && |d["password"].s| < 6 ==> r == Rejected(PasswordTooShort)
    ensures r.Accepted? <==> d["password"] == d["confirmPassword"] && |d["password"].s| >= 6
    ensures r.Accepted? ==> r.payload.Keys == d.Keys - {"confirmPassword"}
    ensures r.Accepted? ==> forall k :: k in r.payload ==> r.payload[k] == d[k]
  {
    if d["password"] != d["confirmPassword"] then Rejected(PasswordsDiffer)
    else if |d["password"].s| < 6 then Rejected(PasswordTooShort)
    else Accepted(map k | k in d && k != "confirmPassword" :: d[k])
  }

  /** `name.split('.')[1]` for an input named `location.<field>`. */
  function LocationFieldOf(name: string): string
    requires StartsWith(name, "location.")
  {
    assert name[8] == '.';
    SecondSegment(name, '.').value
  }

  class RegisterForm {
    var formData: Form
    var error: string
    var loading: bool

    ghost predicate Valid()
      reads this
    {
      WellFormed(formData)
    }

    constructor ()
      ensures Valid()
      ensures formData == InitialForm && error == "" && !loading
    {
      formData := InitialForm;
      error := "";
      loading := false;
    }

    /**
     * `handleChange`: a `location.<field>` input edits that field of the group and keeps the
     * others; any other input sets the field it is named after. The error is cleared.
     * No input is named `location` itself.
     */
    method HandleChange(name: string, value: string)
      requires Valid() && name != "location"
      modifies this
      ensures Valid() && error == "" && loading == old(loading)
      ensures StartsWith(name, "location.") ==>
        formData == old(formData)["location" :=
          Nested(old(formData)["location"].fields[LocationFieldOf(name) := value])]
      ensures !StartsWith(name, "location.") ==> formData == old(formData)[name := Str(value)]
    {
      if StartsWith(name, "location.") {
        var field := LocationFieldOf(name);
        formData := formData["location" := Nested(formData["location"].fields[field := value])];
      } else {
        formData := formData[name := Str(value)];
      }
      error := "";
    }

    /**
     * The synchronous part of `handleSubmit`: on a failed check the error is shown and nothing
     * is sent; otherwise the payload for `register` is returned and the form stays busy.
     */
    method BeginSubmit() returns (request: Option<Form>)
      requires Valid()
      modifies this
      ensures Valid() && formData == old(formData)
      ensures CheckSubmission(formData).Rejected? ==>
        request == None && error == CheckSubmission(formData).message && !loading
      ensures CheckSubmission(formData).Accepted? ==>
        request == Some(CheckSubmission(formData).payload) && error == "" && loading
    {
      loading := true;
      error := "";
      var check := CheckSubmission(formData);
      if check.Rejected? {
        error := check.message;
        loading := false;
        return None;
      }
      return Some(check.payload);
    }

    /** The rest of `handleSubmit`, once `register` answers: success navigates to the dashboard. */
    method FinishSubmit(result: AuthResult) returns (navigateTo: Option<string>)
      modifies this
      ensures formData == old(formData) && !loading
      ensures result.Succeeded? ==> navigateTo == Some("/dashboard") && error == old(error)
      ensures result.Failed? ==> navigateTo == None && error == result.message
      ensures result.Threw? ==> navigateTo == None && error == UnexpectedError
    {
      navigateTo := None;
      match result {
        case Succeeded => navigateTo := Some("/dashboard");
        case Failed(message) => error := message;
        case Threw => error := UnexpectedError;
      }
      loading := false;
    }
  }

  /** A password of exactly six characters, confirmed, is accepted and sent without its confirmation. */
  lemma SixCharactersSuffice(d: Form)
    requires WellFormed(d) && d["password"] == d["confirmPassword"] && |d["password"].s| == 6
    ensures CheckSubmission(d).Accepted?
    ensures "confirmPassword" !in CheckSubmission(d).payload
    ensures "password" in CheckSubmission(d).payload
  {
  }
}
