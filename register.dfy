/** The account registration page. */
module Register {
  import opened Common

  datatype RegisterForm = RegisterForm(name: string, email: string, password: string)

  /** The JSON body posted to the registration endpoint. */
  datatype RegisterBody = RegisterBody(email: string, username: string, password: string)

  /** `registerSchema`; the email format check is the foreign `isEmail`. */
  predicate RegisterValid(f: RegisterForm, isEmail: string -> bool)
  {
    |f.name| >= 2 && isEmail(f.email) && |f.password| >= 8
  }

  /** A name shorter than 2 or a password shorter than 8 characters is
      rejected whatever the email; otherwise the email check decides. */
  lemma RegisterThresholds(f: RegisterForm, isEmail: string -> bool)
    ensures |f.name| < 2 || |f.password| < 8 ==> !RegisterValid(f, isEmail)
    ensures |f.name| >= 2 && |f.password| >= 8 ==> (RegisterValid(f, isEmail) <==> isEmail(f.email))
  {
  }

  /** The request body built from validated data. */
  function Body(f: RegisterForm): (b: RegisterBody)
    ensures b.username == f.name && b.email == f.email && b.password == f.password
  {
    RegisterBody(f.email, f.name, f.password)
  }

  /** The form is recoverable from the body: the mapping renames only. */
  function FormOf(b: RegisterBody): RegisterForm
  {
    RegisterForm(b.username, b.email, b.password)
  }

  lemma BodyRoundTrip(f: RegisterForm)
    ensures FormOf(Body(f)) == f
  {
  }

  /** `setFormData(prev => ({ ...prev, [id]: value }))`: the field named by the
      input id takes the value; an id that names no field leaves the three
      fields as they were (the schema strips the extra key). */
  function WithField(f: RegisterForm, id: string, value: string): (g: RegisterForm)
    ensures g.name == (if id == "name" then value else f.name)
    ensures g.email == (if id == "email" then value else f.email)
    ensures g.password == (if id == "password" then value else f.password)
  {
    match id
    case "name" => f.(name := value)
    case "email" => f.(email := value)
    case "password" => f.(password := value)
    case _ => f
  }

  /** Editing a field twice keeps the last value; edits of different fields commute. */
  lemma WithFieldLastWins(f: RegisterForm, id: string, a: string, b: string)
    ensures WithField(WithField(f, id, a), id, b) == WithField(f, id, b)
  {
  }

  lemma WithFieldCommute(f: RegisterForm, id1: string, a: string, id2: string, b: string)
    requires id1 != id2
    ensures WithField(WithField(f, id1, a), id2, b) == WithField(WithField(f, id2, b), id1, a)
  {
  }

  class RegisterPage {
    var formData: RegisterForm
    /** Raised while a request awaits its reply; the submit button is disabled then. */
    var isLoading: bool
    var navigatedTo: Option<string>
    /** The number of error notifications raised. */
    var errorToasts: nat

    constructor ()
      ensures formData == RegisterForm("", "", "") && !isLoading && navigatedTo == None && errorToasts == 0
    {
      formData := RegisterForm("", "", "");
      isLoading := false;
      navigatedTo := None;
      errorToasts := 0;
    }

    /** `handleChange` for the input with the given id. */
    method HandleChange(id: string, value: string)
      modifies this
      ensures formData == WithField(old(formData), id, value)
      ensures isLoading == old(isLoading)
      ensures navigatedTo == old(navigatedTo) && errorToasts == old(errorToasts)
    {
      formData := WithField(formData, id, value);
    }

    /** `handleSubmit` up to the awaited request: the loading flag is raised, the
        schema is checked, and only valid data produces a request. Invalid data
        ends the submit at once with an error notification and the flag down. */
    method BeginSubmit(isEmail: string -> bool) returns (request: Option<RegisterBody>)
      requires !isLoading
      modifies this
      ensures formData == old(formData) && navigatedTo == old(navigatedTo)
      ensures RegisterValid(formData, isEmail) ==>
        request == Some(Body(formData)) && isLoading && errorToasts == old(errorToasts)
      ensures !RegisterValid(formData, isEmail) ==>
        request == None && !isLoading && errorToasts == old(errorToasts) + 1
    {
      isLoading := true;
      if RegisterValid(formData, isEmail) {
        request := Some(Body(formData));
      } else {
        request := None;
        errorToasts := errorToasts + 1;
        isLoading := false;
      }
    }

    /** The rest of `handleSubmit` once the reply is in: only `success` = true
        navigates to "/"; every other reply notifies an error; the loading flag
        is lowered on every path. */
    method CompleteSubmit(reply: Reply)
      requires isLoading
      modifies this
      ensures !isLoading
      ensures formData == old(formData)
      ensures reply == Received(true, true) ==>
        navigatedTo == Some("/") && errorToasts == old(errorToasts)
      ensures reply != Received(true, true) ==>
        navigatedTo == old(navigatedTo) && errorToasts == old(errorToasts) + 1
    {
      match reply {
        case Thrown =>
          errorToasts := errorToasts + 1;
        case Received(ok, success) =>
          if !ok {
            errorToasts := errorToasts + 1;
          } else if success {
            navigatedTo := Some("/");
          } else {
            errorToasts := errorToasts + 1;
          }
      }
      isLoading := false;
    }
  }
}
