/**
 * The login / sign-up dialog: a flat form, an optional confirmation check, and the choice
 * between a `login` call and a `register` call with a fixed set of fields.
 */
module AuthModal {
  import opened Wrappers
  import opened AuthContext

  type Form = map<string, string>

  /** The initial form. There is no `confirmpassword` key until that input is edited. */
  const InitialForm: Form := map["email" := "", "password" := "", "name" := "", "phone" := ""]

  predicate WellFormed(d: Form) {
    "email" in d && "password" in d && "name" in d && "phone" in d
  }

  datatype AuthRequest = Login(email: string, password: string) | Register(profile: Form)

  datatype Plan = Reject(message: string) | Send(request: AuthRequest)

  /**
   * `handleSubmit`'s decision for a dialog opened with `kind`: a sign-up whose passwords differ
   * (an absent confirmation reads as `undefined`) is rejected; a login sends email and
   * password; anything else registers with name, email, phone and password.
   */
  function PlanSubmission(kind: string, d: Form): (p: Plan)
    requires WellFormed(d)
    ensures kind == "signup" && Get(d, "password") != Get(d, "confirmpassword") ==> p == Reject(PasswordsDiffer)
    ensures kind == "login" ==> p == Send(Login(d["email"], d["password"]))
    ensures kind != "login" && !(kind == "signup" && Get(d, "password") != Get(d, "confirmpassword")) ==>
      p.Send? && p.request.Register?
    ensures p.Send? && p.request.Register? ==>
      p.request.profile.Keys == {"name", "email", "phone", "password"}
      && forall k :: k in p.request.profile ==> p.request.profile[k] == d[k]
  {
    if kind == "signup" && Get(d, "password") != Get(d, "confirmpassword") then Reject(PasswordsDiffer)
    else if kind == "login" then Send(Login(d["email"], d["password"]))
    else Send(Register(map["name" := d["name"], "email" := d["email"], "phone" := d["phone"], "password" := d["password"]]))
  }

  /** A sign-up whose confirmation field was never edited is always rejected. */
  lemma SignupNeedsConfirmationEdit(d: Form)
    requires WellFormed(d) && "confirmpassword" !in d
    ensures PlanSubmission("signup", d) == Reject(PasswordsDiffer)
  {
  }

  /** A login is never rejected by the dialog, whatever the confirmation field holds. */
  lemma LoginSkipsConfirmation(d: Form, confirm: string)
    requires WellFormed(d)
    ensures PlanSubmission("login", d) == PlanSubmission("login", d["confirmpassword" := confirm])
    ensures PlanSubmission("login", d).Send?
  {
  }

  /**
   * The home page opens the dialog with kind `register`, which the dialog does not treat as a
   * sign-up: it registers without comparing the passwords.
   */
  lemma RegisterKindSkipsConfirmation(d: Form)
    requires WellFormed(d)
    ensures PlanSubmission("register", d).Send? && PlanSubmission("register", d).request.Register?
  {
  }

  class AuthDialog {
    const kind: string
    var formData: Form
    var error: string
    var loading: bool

    ghost predicate Valid()
      reads this
    {
      WellFormed(formData)
    }

    constructor (kind: string)
      ensures Valid()
      ensures this.kind == kind && formData == InitialForm && error == "" && !loading
    {
      this.kind := kind;
      formData := InitialForm;
      error := "";
      loading := false;
    }

    /** `handleChange`: sets the one named field and clears the error. */
    method HandleChange(name: string, value: string)
      requires Valid()
      modifies this
      ensures Valid()
      ensures formData == old(formData)[name := value] && error == "" && loading == old(loading)
    {
      formData := formData[name := value];
      error := "";
    }

    /** The synchronous part of `handleSubmit`: a rejection shows its message and sends nothing. */
    method BeginSubmit() returns (request: Option<AuthRequest>)
      requires Valid()
      modifies this
      ensures Valid() && formData == old(formData)
      ensures PlanSubmission(kind, formData).Reject? ==>
        request == None && error == PlanSubmission(kind, formData).message && !loading
      ensures PlanSubmission(kind, formData).Send? ==>
        request == Some(PlanSubmission(kind, formData).request) && error == "" && loading
    {
      loading := true;
      error := "";
      var plan := PlanSubmission(kind, formData);
      if plan.Reject? {
        error := plan.message;
        loading := false;
        return None;
      }
      return Some(plan.request);
    }

    /** The rest of `handleSubmit`: success hands over to `onAuthSuccess`, failure shows the message. */
    method FinishSubmit(result: AuthResult) returns (authSucceeded: bool)
      modifies this
      ensures formData == old(formData) && !loading
      ensures authSucceeded <==> result.Succeeded?
      ensures result.Succeeded? ==> error == old(error)
      ensures result.Failed? ==> error == result.message
      ensures result.Threw? ==> error == UnexpectedError
    {
      authSucceeded := result.Succeeded?;
      match result {
        case Succeeded =>
        case Failed(message) => error := message;
        case Threw => error := UnexpectedError;
      }
      loading := false;
    }
  }
}
