/**
  The sign-up page: the form library checks the values against the sign-up
  schema before the submit handler runs; the handler then refuses banned
  countries, sends the registration, and on success resets the form and
  navigates to the sign-in route. The request's result is an input of the
  model.
*/
module SignUp {

  import opened Wrappers
  import opened Js
  import opened AuthSchemas
  import opened ZodErrorMap
  import opened ServerErrors
  import opened Countries
  import opened Forms

  /** The country codes registration is refused for. */
  const BannedCountries: seq<string> := ["IR"]

  const MsgBanned := "برای برخی کشورها ثبت‌نام مجاز نیست"

  /** The default banner text of a failed registration. */
  const SignUpFailed := "ثبت‌نام ناموفق بود!"

  /** The hash a successful registration navigates to. */
  const SignInHash := "#/signin"

  /** The values the form starts with and is reset to: both consents ticked, marketing not. */
  const DefaultSignUpValues :=
    SignUpValues("", "", "", Catalog[0].value, "", "", Some(true), Some(true), Some(false))

  /** `bannedCountries.includes(country)` */
  predicate IsBanned(country: string) {
    country in BannedCountries
  }

  /**
    The values the sign-up schema accepts, field by field: the condition under
    which the form library lets the submit handler run.
  */
  predicate SchemaAccepts(d: SignUpValues, isEmail: string -> bool) {
    && d.firstName != "" && d.lastName != "" && isEmail(d.email) && d.country != ""
    && PhoneAccepted(d.phone) && Utf16Length(d.password) >= 8
    && d.risk == Some(true) && d.tcs == Some(true)
  }

  /** `SchemaAccepts` holds exactly for the values on which the schema reports no issue. */
  lemma SchemaAcceptsExactly(d: SignUpValues, isEmail: string -> bool)
    ensures SchemaAccepts(d, isEmail) <==> SignUpIssues(d, isEmail) == []
  {
    SignUpAccepts(d, isEmail);
  }

  /**
    The line under the consent boxes: shown when `risk` or `tcs` has an error,
    with `errors.risk?.message || errors.tcs?.message` as its text.
  */
  function ConsentLine(errors: map<string, FieldError>): Option<string> {
    if "risk" !in errors && "tcs" !in errors then None
    else if "risk" in errors && errors["risk"].message != "" then Some(errors["risk"].message)
    else if "tcs" in errors then Some(errors["tcs"].message)
    else Some("")
  }

  /** Only Iran is banned, and it is one of the catalog's own entries. */
  lemma BannedIsIran(country: string)
    ensures IsBanned(country) <==> country == "IR"
    ensures "IR" in Codes()
  {
    assert Catalog[1].value == "IR";
  }

  /**
    The ban is not a schema rule: a form with Iran that is otherwise complete
    passes the schema, so it reaches the submit handler and is refused there.
  */
  lemma BannedPassesSchema(d: SignUpValues, isEmail: string -> bool)
    requires d.country == "IR"
    requires d.firstName != "" && d.lastName != "" && isEmail(d.email)
    requires PhoneAccepted(d.phone) && Utf16Length(d.password) >= 8
    requires d.risk == Some(true) && d.tcs == Some(true)
    ensures SignUpIssues(d, isEmail) == []
    ensures SchemaAccepts(d, isEmail) && IsBanned(d.country)
  {
    SignUpAccepts(d, isEmail);
  }

  /**
    The default values carry both consents, so the consent checks pass on a
    fresh form, but the empty names and phone make the fresh form fail.
  */
  lemma DefaultValues(isEmail: string -> bool)
    ensures FieldMessages(SignUpIssues(DefaultSignUpValues, isEmail), "risk") == []
    ensures FieldMessages(SignUpIssues(DefaultSignUpValues, isEmail), "tcs") == []
    ensures FieldMessages(SignUpIssues(DefaultSignUpValues, isEmail), "firstName") == [MsgFirstName]
    ensures SignUpIssues(DefaultSignUpValues, isEmail) != []
    ensures !IsBanned(DefaultSignUpValues.country)
  {
    ConsentRule(DefaultSignUpValues, isEmail);
    NameRule(DefaultSignUpValues, isEmail);
    BannedIsIran(DefaultSignUpValues.country);
  }

  /**
    The consent line is absent exactly when neither consent has an error; a
    non-empty `risk` message takes precedence over the `tcs` one.
  */
  lemma ConsentLineRule(errors: map<string, FieldError>)
    ensures ConsentLine(errors).None? <==> "risk" !in errors && "tcs" !in errors
    ensures "risk" in errors && errors["risk"].message != "" ==> ConsentLine(errors) == Some(errors["risk"].message)
    ensures "risk" !in errors && "tcs" in errors ==> ConsentLine(errors) == Some(errors["tcs"].message)
  {
  }

  /**
    With the consent errors the schema reports, the line shows the risk message
    when the risk box is unticked (whatever the terms box), the terms message
    when only the terms box is, and nothing when both are ticked.
  */
  lemma ConsentLineForSchema(d: SignUpValues, isEmail: string -> bool, errors: map<string, FieldError>)
    requires "risk" in errors <==> FieldMessages(SignUpIssues(d, isEmail), "risk") != []
    requires "tcs" in errors <==> FieldMessages(SignUpIssues(d, isEmail), "tcs") != []
    requires "risk" in errors ==> errors["risk"].message in FieldMessages(SignUpIssues(d, isEmail), "risk")
    requires "tcs" in errors ==> errors["tcs"].message in FieldMessages(SignUpIssues(d, isEmail), "tcs")
    ensures ConsentLine(errors) ==
      if d.risk != Some(true) then Some(MsgRisk)
      else if d.tcs != Some(true) then Some(MsgTcs)
      else None
  {
    ConsentRule(d, isEmail);
  }

  class SignUpPage {
    var values: SignUpValues
    /** The values the last submit sent to `auth.register`, if it sent any. */
    var registerCall: Option<SignUpValues>
    const form: FormState

    constructor ()
      ensures values == DefaultSignUpValues && registerCall == None
      ensures fresh(form) && form.fieldErrors == map[] && form.globalError == None && !form.loading
    {
      values := DefaultSignUpValues;
      registerCall := None;
      form := new FormState();
    }

    /** The user edits the inputs. */
    method Edit(v: SignUpValues)
      modifies this
      ensures values == v && registerCall == old(registerCall)
    {
      values := v;
    }

    /**
      The request part of `onSubmit`: send the values, then reset and navigate on
      success or dispatch the failure.
    */
    method Register(outcome: NetworkOutcome) returns (navigateTo: Option<string>)
      modifies this, form
      ensures registerCall == Some(old(values)) && form.loading == old(form.loading)
      ensures match outcome
        case Succeeded =>
          && values == DefaultSignUpValues && form.fieldErrors == map[] && form.globalError == old(form.globalError)
          && navigateTo == Some(SignInHash)
        case Failed(err) =>
          var mapped := ServerErrorMap(err);
          && values == old(values) && navigateTo == None
          && if |mapped| > 0 then
               && form.fieldErrors == old(form.fieldErrors) + ServerFieldErrors(mapped)
               && form.globalError == (if Global in mapped then Some(mapped[Global]) else old(form.globalError))
             else
               && form.fieldErrors == old(form.fieldErrors)
               && form.globalError == Some(FallbackMessage(err, SignUpFailed))
    {
      registerCall := Some(values);
      match outcome {
        case Succeeded =>
          values := DefaultSignUpValues;
          form.fieldErrors := map[];
          navigateTo := Some(SignInHash);
        case Failed(err) =>
          form.ReportServerFailure(err, SignUpFailed);
          navigateTo := None;
      }
    }

    /**
      `onSubmit`, which the form library runs only on values the sign-up schema
      accepts; `outcome` is what the registration request returns, and
      `navigateTo` the hash the page sets, if any.
    */
    method Submit(isEmail: string -> bool, outcome: NetworkOutcome) returns (navigateTo: Option<string>)
      requires SchemaAccepts(values, isEmail)
      requires !form.loading
      modifies this, form
      ensures !form.loading
      ensures if IsBanned(old(values).country) then
          && registerCall == None && navigateTo == None
          && values == old(values)
          && form.fieldErrors == old(form.fieldErrors)
          && form.globalError == Some(MsgBanned)
        else
          && registerCall == Some(old(values))
          && match outcome
             case Succeeded =>
               && values == DefaultSignUpValues && form.fieldErrors == map[] && form.globalError == None
               && navigateTo == Some(SignInHash)
             case Failed(err) =>
               var mapped := ServerErrorMap(err);
               && values == old(values) && navigateTo == None
               && if |mapped| > 0 then
                    && form.fieldErrors == old(form.fieldErrors) + ServerFieldErrors(mapped)
                    && form.globalError == (if Global in mapped then Some(mapped[Global]) else None)
                  else
                    && form.fieldErrors == old(form.fieldErrors)
                    && form.globalError == Some(FallbackMessage(err, SignUpFailed))
    {
      registerCall := None;
      form.globalError := None;
      if IsBanned(values.country) {
        form.globalError := Some(MsgBanned);
        return None;
      }
      form.loading := true;
      navigateTo := Register(outcome);
      form.loading := false;
    }
  }
}
