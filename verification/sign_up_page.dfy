/** The sign-up form (frontend/src/pages/SignUpPage.jsx): its fields, the
    password checks made before the account is requested, and the field
    update on typing. The store's `clearError` and `signUp` belong to the
    authentication provider: calls to them are counted and recorded, and
    whether `signUp` reports an error is an input. */
module SignUpPage {
  import opened Wrappers
  import opened Text

  const FieldNames: set<string> := {"email", "password", "confirmPassword", "firstName", "lastName", "organization"}

  const MismatchMessage := "Passwords do not match"
  const LengthMessage := "Password must be at least 6 characters long"
  const MinPasswordLength := 6

  /** The problem with a form, if any: mismatched passwords are reported
      before a short one, and a password's length is JavaScript's, in
      UTF-16 code units. */
  function Validate(formData: map<string, string>): (problem: Option<string>)
    requires FieldNames <= formData.Keys
  {
    if formData["password"] != formData["confirmPassword"] then Some(MismatchMessage)
    else if Utf16Length(formData["password"]) < MinPasswordLength then Some(LengthMessage)
    else None
  }

  /** A form passes exactly when its two passwords agree and are at least
      six UTF-16 code units long; a short mismatched password reports the
      mismatch. Six characters always pass the length check, and so can
      three characters beyond U+FFFF; fewer than three never do. */
  lemma ValidateMeaning(formData: map<string, string>)
    requires FieldNames <= formData.Keys
    ensures Validate(formData).None? <==>
              formData["password"] == formData["confirmPassword"]
              && Utf16Length(formData["password"]) >= MinPasswordLength
    ensures formData["password"] != formData["confirmPassword"] ==> Validate(formData) == Some(MismatchMessage)
    ensures Validate(formData) == Some(LengthMessage) ==> formData["password"] == formData["confirmPassword"]
    ensures |formData["password"]| >= MinPasswordLength ==> Validate(formData) != Some(LengthMessage)
    ensures 2 * |formData["password"]| < MinPasswordLength ==> Validate(formData).Some?
  {
  }

  /** Three emoji make a six-unit password: the form with that password in
      both fields passes. */
  lemma ThreeEmojiPass(formData: map<string, string>)
    requires FieldNames <= formData.Keys
    requires formData["password"] == formData["confirmPassword"] == "\U{1F600}\U{1F600}\U{1F600}"
    ensures Validate(formData).None?
  {
  }

  /** The profile data sent with the account, under the provider's names. */
  function UserData(formData: map<string, string>): (data: map<string, string>)
    requires FieldNames <= formData.Keys
    ensures data.Keys == {"first_name", "last_name", "organization"}
    ensures data["first_name"] == formData["firstName"] && data["last_name"] == formData["lastName"]
    ensures data["organization"] == formData["organization"]
  {
    map["first_name" := formData["firstName"], "last_name" := formData["lastName"],
        "organization" := formData["organization"]]
  }

  /** One call of `signUp(email, password, userData)`. */
  datatype SignUpCall = SignUpCall(email: string, password: string, userData: map<string, string>)

  class Form {
    var formData: map<string, string>
    var formError: string
    var clearErrorCalls: nat
    var signUpCalls: seq<SignUpCall>
    var navigations: seq<string>

    /** The six fields are always present. */
    predicate Valid()
      reads this
    {
      FieldNames <= formData.Keys
    }

    /** Every field starts empty, with no error and no calls made. */
    constructor()
      ensures Valid()
      ensures forall k :: k in FieldNames ==> formData[k] == ""
      ensures formData.Keys == FieldNames
      ensures formError == "" && clearErrorCalls == 0 && signUpCalls == [] && navigations == []
    {
      formData := map["email" := "", "password" := "", "confirmPassword" := "",
                      "firstName" := "", "lastName" := "", "organization" := ""];
      formError := "";
      clearErrorCalls := 0;
      signUpCalls := [];
      navigations := [];
    }

    /** `handleSubmit`: both errors are cleared first; a failed check sets
        its message and stops; otherwise the account is requested, and only
        an error-free reply navigates to the dashboard. The form's fields
        are not changed. */
    method HandleSubmit(signUpFails: bool)
      requires Valid()
      modifies this
      ensures Valid() && formData == old(formData)
      ensures clearErrorCalls == old(clearErrorCalls) + 1
      ensures formError == Validate(formData).GetOr("")
      ensures Validate(formData).Some? ==>
                signUpCalls == old(signUpCalls) && navigations == old(navigations)
      ensures Validate(formData).None? ==>
                signUpCalls == old(signUpCalls) +
                  [SignUpCall(formData["email"], formData["password"], UserData(formData))]
      ensures navigations == old(navigations) + ["/dashboard"] <==> Validate(formData).None? && !signUpFails
      ensures navigations == old(navigations) <==> Validate(formData).Some? || signUpFails
    {
      clearErrorCalls := clearErrorCalls + 1;
      formError := "";

      if formData["password"] != formData["confirmPassword"] {
        formError := MismatchMessage;
        return;
      }

      if Utf16Length(formData["password"]) < MinPasswordLength {
        formError := LengthMessage;
        return;
      }

      var userData := UserData(formData);
      signUpCalls := signUpCalls + [SignUpCall(formData["email"], formData["password"], userData)];

      if !signUpFails {
        navigations := navigations + ["/dashboard"];
      }
    }

    /** `handleChange`: the named field takes the typed value, every other
        field keeps its value, and any form error is cleared. */
    method HandleChange(name: string, value: string)
      requires Valid()
      modifies this
      ensures Valid()
      ensures formData == old(formData)[name := value]
      ensures formData[name] == value
      ensures forall k :: k in old(formData) && k != name ==> formData[k] == old(formData)[k]
      ensures formError == ""
      ensures clearErrorCalls == old(clearErrorCalls) && signUpCalls == old(signUpCalls)
      ensures navigations == old(navigations)
    {
      formData := formData[name := value];
      if formError != "" {
        formError := "";
      }
    }
  }
}
