/** The registration page (client/src/app/register/page.tsx): the form schema, its
    defaults, and what a submission ends in. The email pattern is a parameter. */
module RegisterPage {
  import opened Js
  import opened AuthContext
  import opened SubmitErrors

  datatype RegisterForm = RegisterForm(name: string, email: string, password: string, role: string,
                                       gender: string, nationalId: string)

  const SelfServiceRoles: set<string> := {"PATIENT", "DOCTOR"}
  const Genders: set<string> := {"MALE", "FEMALE", "OTHER"}
  const MinPasswordLength: nat := 6
  const RegisterFailed: string := "Registration failed. Please try again."

  /** The schema: every field required (non-empty), a well-formed email, a password of
      at least six characters, and a role and gender from their lists. */
  predicate RegisterValid(f: RegisterForm, isEmail: string -> bool)
    ensures RegisterValid(f, isEmail) ==> |f.password| >= MinPasswordLength && f.role != "ADMIN" && isEmail(f.email)
  {
    && f.name != ""
    && f.email != "" && isEmail(f.email)
    && f.password != "" && |f.password| >= MinPasswordLength
    && f.role != "" && f.role in SelfServiceRoles
    && f.gender != "" && f.gender in Genders
    && f.nationalId != ""
  }

  const DefaultForm: RegisterForm := RegisterForm("", "", "", "PATIENT", "MALE", "")

  /** The defaults pass the role and gender checks, fail the required text fields, and
      no one registers as ADMIN through this form. */
  lemma SchemaFacts(f: RegisterForm, isEmail: string -> bool)
    ensures DefaultForm.role in SelfServiceRoles && DefaultForm.gender in Genders
    ensures !RegisterValid(DefaultForm, isEmail)
    ensures RegisterValid(f, isEmail) ==> f.role != "ADMIN" && |f.password| >= 6
    ensures forall r :: r in Roles && r != "ADMIN" ==> r in SelfServiceRoles
  {
  }

  /** What a submission ends in: the page left for `/dashboard`, or the error shown. */
  datatype SubmitResult = SubmitResult(navigation: Option<string>, error: Option<string>, isSubmitting: bool)

  /** `onSubmit`, with what `POST /api/register` threw, if anything. */
  function OnSubmit(thrown: Option<Thrown>): (r: SubmitResult)
    ensures !r.isSubmitting
    ensures thrown.None? ==> r.navigation == Some("/dashboard") && r.error.None?
    ensures thrown.Some? ==> r.navigation.None? && r.error == Some(SubmitErrorMessage(thrown.value, RegisterFailed))
  {
    match thrown
    case None => SubmitResult(Some("/dashboard"), None, false)
    case Some(err) => SubmitResult(None, Some(SubmitErrorMessage(err, RegisterFailed)), false)
  }
}
