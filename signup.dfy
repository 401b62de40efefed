/** The sign-up form's submit handler: three checks in a fixed order, the
    first failure reported as a toast and the success toast only when all
    three pass. */
module Signup {
  /** The form's state. */
  datatype Form = Form(
    fullName: string,
    email: string,
    password: string,
    confirmPassword: string,
    phone: string,
    userType: string,
    agreeToTerms: bool,
    agreeToMarketing: bool)

  /** The toast `handleSubmit` shows. */
  datatype Toast = MissingInformation | PasswordMismatch | TermsRequired | AccountCreated

  /** The required fields, in the order they are checked. */
  const RequiredFields: seq<string> := ["fullName", "email", "password", "confirmPassword", "userType"]

  /** The value of a text field by its name; `phone` is not a required one. */
  function Field(form: Form, name: string): string
    requires name in RequiredFields
  {
    if name == "fullName" then form.fullName
    else if name == "email" then form.email
    else if name == "password" then form.password
    else if name == "confirmPassword" then form.confirmPassword
    else form.userType
  }

  /** `requiredFields.filter(field => !formData[field])` */
  function Missing(form: Form, fields: seq<string>): (r: seq<string>)
    requires forall i :: 0 <= i < |fields| ==> fields[i] in RequiredFields
    ensures forall f :: f in r <==> f in fields && Field(form, f) == ""
  {
    if fields == [] then []
    else
      var rest := Missing(form, fields[1..]);
      if Field(form, fields[0]) == "" then [fields[0]] + rest else rest
  }

  function HandleSubmit(form: Form): Toast {
    if Missing(form, RequiredFields) != [] then MissingInformation
    else if form.password != form.confirmPassword then PasswordMismatch
    else if !form.agreeToTerms then TermsRequired
    else AccountCreated
  }

  predicate AllFilled(form: Form) {
    form.fullName != "" && form.email != "" && form.password != "" && form.confirmPassword != ""
    && form.userType != ""
  }

  /** The five required fields are exactly the ones the check looks at. */
  lemma MissingIffEmpty(form: Form)
    ensures Missing(form, RequiredFields) == [] <==> AllFilled(form)
  {
    var m := Missing(form, RequiredFields);
    assert Field(form, "fullName") == form.fullName && Field(form, "email") == form.email;
    assert Field(form, "password") == form.password && Field(form, "confirmPassword") == form.confirmPassword;
    assert Field(form, "userType") == form.userType;
    if m == [] {
      assert RequiredFields[0] == "fullName" && RequiredFields[1] == "email" && RequiredFields[2] == "password";
      assert RequiredFields[3] == "confirmPassword" && RequiredFields[4] == "userType";
    } else {
      assert m[0] in m;
      assert m[0] in RequiredFields && Field(form, m[0]) == "";
    }
  }

  /** The account is created exactly when every required field is filled,
      the two passwords are equal and the terms are accepted; and each
      failure is reported only when every earlier check passed. */
  lemma SubmitOrder(form: Form)
    ensures HandleSubmit(form) == AccountCreated <==>
      AllFilled(form) && form.password == form.confirmPassword && form.agreeToTerms
    ensures HandleSubmit(form) == MissingInformation <==> !AllFilled(form)
    ensures HandleSubmit(form) == PasswordMismatch <==> AllFilled(form) && form.password != form.confirmPassword
    ensures HandleSubmit(form) == TermsRequired <==>
      AllFilled(form) && form.password == form.confirmPassword && !form.agreeToTerms
  {
    MissingIffEmpty(form);
  }

  /** The phone number and the marketing box never change the outcome. */
  lemma OptionalFieldsIrrelevant(form: Form, phone: string, marketing: bool)
    ensures HandleSubmit(form.(phone := phone, agreeToMarketing := marketing)) == HandleSubmit(form)
  {
    MissingIffEmpty(form);
    MissingIffEmpty(form.(phone := phone, agreeToMarketing := marketing));
  }
}
