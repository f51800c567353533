/** The sign-in and sign-up form (frontend/src/components/AuthForm.tsx): its fields,
    the password visibility switch and the checks made before the form is handed on. */
module AuthForm {
  import opened Shared

  datatype FormType = LoginForm | SignupForm

  datatype FormData = FormData(name: string, email: string, password: string, role: Role)

  /** The text inputs, by their `name` attribute (AuthForm.tsx:90, 106, 122). */
  datatype Field = NameField | EmailField | PasswordField

  /** The form's first contents (AuthForm.tsx:28-33). */
  const InitialForm := FormData("", "", "", Patient)

  function FieldValue(f: FormData, field: Field): string {
    match field
    case NameField => f.name
    case EmailField => f.email
    case PasswordField => f.password
  }

  /** handleChange's update (AuthForm.tsx:35-38): the edited input takes the new text,
      every other input and the role keep theirs. */
  function WithField(f: FormData, field: Field, value: string): (r: FormData)
    ensures FieldValue(r, field) == value
    ensures forall other :: other != field ==> FieldValue(r, other) == FieldValue(f, other)
    ensures r.role == f.role
  {
    match field
    case NameField => f.(name := value)
    case EmailField => f.(email := value)
    case PasswordField => f.(password := value)
  }

  /** Typing the text an input already holds changes nothing. */
  lemma WithSameValue(f: FormData, field: Field)
    ensures WithField(f, field, FieldValue(f, field)) == f
  {
  }

  /** The password input's type (AuthForm.tsx:123). */
  function PasswordInputType(showPassword: bool): (t: string)
    ensures t == "text" <==> showPassword
    ensures t == "password" <==> !showPassword
  {
    if showPassword then "text" else "password"
  }

  const MissingFields := "Please fill in all required fields"
  const MissingName := "Please enter your name"

  datatype SubmitOutcome = Rejected(toast: Toast) | Submitted(data: FormData)

  /** The form's state. */
  class AuthFormState {
    var formData: FormData
    var showPassword: bool

    constructor ()
      ensures formData == InitialForm && !showPassword
    {
      formData := InitialForm;
      showPassword := false;
    }

    /** handleChange (AuthForm.tsx:35-38). */
    method HandleChange(field: Field, value: string)
      modifies this
      ensures formData == WithField(old(formData), field, value)
      ensures showPassword == old(showPassword)
    {
      formData := WithField(formData, field, value);
    }

    /** handleRoleSelect (AuthForm.tsx:40-42). */
    method HandleRoleSelect(role: Role)
      modifies this
      ensures formData == old(formData).(role := role)
      ensures showPassword == old(showPassword)
    {
      formData := formData.(role := role);
    }

    /** The eye button (AuthForm.tsx:133). */
    method ToggleShowPassword()
      modifies this
      ensures showPassword == !old(showPassword)
      ensures formData == old(formData)
    {
      showPassword := !showPassword;
    }

    /** handleSubmit (AuthForm.tsx:44-67): the form goes on to the page's handler only with
        an e-mail and a password, and, when signing up, a name; otherwise one error toast. */
    method HandleSubmit(kind: FormType) returns (out: SubmitOutcome)
      ensures out.Submitted? <==>
        formData.email != "" && formData.password != "" && (kind == SignupForm ==> formData.name != "")
      ensures out.Submitted? ==> out.data == formData
      ensures out.Rejected? ==> out.toast.title == "Validation Error" && out.toast.destructive
      ensures out.Rejected? ==>
        (out.toast.description == MissingFields <==> formData.email == "" || formData.password == "")
      ensures out.Rejected? ==>
        (out.toast.description == MissingName <==> formData.email != "" && formData.password != "")
    {
      if formData.email == "" || formData.password == "" {
        return Rejected(Toast("Validation Error", MissingFields, true));
      }
      if kind == SignupForm && formData.name == "" {
        return Rejected(Toast("Validation Error", MissingName, true));
      }
      out := Submitted(formData);
    }
  }
}
