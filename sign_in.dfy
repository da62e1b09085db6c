/**
  The sign-in page: a form with two modes (e-mail or mobile), validated on
  submit against the schema of the current mode, then sent as a login
  request whose identifier is the e-mail or the dial code followed by the
  phone; a failed request is dispatched to field errors or the banner.
  The request's result is an input of the model.
*/
module SignIn {

  import opened Wrappers
  import opened Js
  import opened AuthSchemas
  import opened ZodErrorMap
  import opened ServerErrors
  import opened Countries
  import opened Forms

  datatype Mode = Email | Mobile

  /** The values of the sign-in form. */
  datatype LoginValues = LoginValues(email: string, country: string, phone: string, password: string)

  /** The body of `auth.login`. */
  datatype LoginBody = LoginBody(kind: Mode, identifier: string, password: string)

  /** The values the form starts with and is reset to. */
  const DefaultLoginValues := LoginValues("", Catalog[0].value, "", "")

  /** The default banner text of a failed sign-in. */
  const SignInFailed := "ورود ناموفق بود!"

  /** The schema of the mode, applied to the fields that mode uses. */
  function LoginIssues(mode: Mode, v: LoginValues, isEmail: string -> bool): seq<Issue> {
    match mode
    case Email => EmailLoginIssues(v.email, v.password, isEmail)
    case Mobile => MobileLoginIssues(v.country, v.phone, v.password)
  }

  /** The login identifier: the e-mail unchanged, or the dial code of the chosen country followed by the phone. */
  function Identifier(mode: Mode, v: LoginValues): string {
    match mode
    case Email => v.email
    case Mobile => DialCode(v.country) + v.phone
  }

  /** The placeholder of the phone input. */
  function PhonePlaceholder(country: string): string {
    SelectedCountry(country).placeholder
  }

  /** E-mail mode validates `{email, password}` only: its issues depend on nothing else and name nothing else. */
  lemma EmailModeFields(v: LoginValues, w: LoginValues, isEmail: string -> bool)
    requires v.email == w.email && v.password == w.password
    ensures LoginIssues(Email, v, isEmail) == LoginIssues(Email, w, isEmail)
    ensures forall iss :: iss in LoginIssues(Email, v, isEmail) ==> iss.path == ["email"] || iss.path == ["password"]
  {
  }

  /** Mobile mode validates `{country, phone, password}` only. */
  lemma MobileModeFields(v: LoginValues, w: LoginValues, isEmail: string -> bool)
    requires v.country == w.country && v.phone == w.phone && v.password == w.password
    ensures LoginIssues(Mobile, v, isEmail) == LoginIssues(Mobile, w, isEmail)
    ensures forall iss :: iss in LoginIssues(Mobile, v, isEmail) ==>
      iss.path == ["country"] || iss.path == ["phone"] || iss.path == ["password"]
  {
  }

  /**
    In mobile mode the identifier is the dial code of the matching catalog entry
    followed by the phone; a code the catalog does not have contributes no dial code.
  */
  lemma MobileIdentifier(v: LoginValues)
    ensures v.country !in Codes() ==> Identifier(Mobile, v) == v.phone
    ensures forall i :: 0 <= i < |Catalog| && Catalog[i].value == v.country ==>
      Identifier(Mobile, v) == Catalog[i].dialCode + v.phone
  {
    forall i | 0 <= i < |Catalog| && Catalog[i].value == v.country
      ensures Identifier(Mobile, v) == Catalog[i].dialCode + v.phone
    {
      LookupByCode(i);
    }
  }

  /** United States and `2015550123` give `+12015550123`. */
  lemma UsIdentifierExample(email: string, password: string)
    ensures Identifier(Mobile, LoginValues(email, "US", "2015550123", password)) == "+12015550123"
  {
    LookupByCode(0);
  }

  /**
    The country is not checked against the catalog: an unknown code passes
    validation, the identifier is the bare phone, and only the placeholder falls
    back to the first entry.
  */
  lemma UnknownCountryAccepted(v: LoginValues, isEmail: string -> bool)
    requires v.country != "" && v.country !in Codes()
    requires PhoneAccepted(v.phone) && Utf16Length(v.password) >= 8
    ensures LoginIssues(Mobile, v, isEmail) == []
    ensures Identifier(Mobile, v) == v.phone
    ensures PhonePlaceholder(v.country) == Catalog[0].placeholder
  {
    MobileLoginAccepts(v.country, v.phone, v.password);
  }

  /**
    The field errors of an e-mail submit with an empty e-mail and a short
    password: both fields get one, and the e-mail shows the format message
    whenever the grammar rejects "", because the later issue overwrites the
    "must not be empty" one.
  */
  lemma EmptyEmailErrors(v: LoginValues, isEmail: string -> bool)
    requires v.email == "" && Utf16Length(v.password) < 8
    ensures var errors := IssuesToMap(LoginIssues(Email, v, isEmail));
      && errors.Keys == {"email", "password"}
      && errors["email"] == (if isEmail("") then MsgEmailRequired else MsgEmailInvalid)
      && errors["password"] == MsgPassword
  {
    var required := Issue(["email"], MsgEmailRequired);
    var invalid := Issue(["email"], MsgEmailInvalid);
    var short := Issue(["password"], MsgPassword);
    assert KeyOf(required) == "email" && KeyOf(invalid) == "email" && KeyOf(short) == "password";
    var issues := LoginIssues(Email, v, isEmail);
    if isEmail("") {
      assert issues == [required, short];
      assert issues[..1] == [required];
      assert IssuesToMap([required]) == map["email" := MsgEmailRequired];
    } else {
      assert issues == [required, invalid, short];
      assert issues[..2] == [required, invalid];
      assert issues[..2][..1] == [required];
      assert IssuesToMap([required]) == map["email" := MsgEmailRequired];
      assert IssuesToMap([required, invalid]) == map["email" := MsgEmailInvalid];
    }
  }

  /** In mobile mode an empty phone shows the length message: both phone checks fail and the later one is kept. */
  lemma EmptyPhoneError(v: LoginValues, isEmail: string -> bool)
    requires v.phone == ""
    ensures var errors := IssuesToMap(LoginIssues(Mobile, v, isEmail));
      "phone" in errors && errors["phone"] == MsgLoginPhoneInvalid
  {
    var issues := LoginIssues(Mobile, v, isEmail);
    LoginPhoneRule(v.country, v.phone, v.password);
    FieldEntry(issues, "phone");
  }

  class SignInPage {
    var mode: Mode
    var values: LoginValues
    /** The body of the login call made by the last submit, if it made one. */
    var loginCall: Option<LoginBody>
    const form: FormState

    constructor ()
      ensures mode == Email && values == DefaultLoginValues && loginCall == None
      ensures fresh(form) && form.fieldErrors == map[] && form.globalError == None && !form.loading
    {
      mode := Email;
      values := DefaultLoginValues;
      loginCall := None;
      form := new FormState();
    }

    /**
      A tab click: `setMode`. When the mode changes, the effect on `mode` resets
      the form to its defaults (which clears its field errors) and clears the banner.
    */
    method SelectMode(m: Mode)
      modifies this, form
      ensures mode == m && loginCall == old(loginCall) && form.loading == old(form.loading)
      ensures if m != old(mode) then
          values == DefaultLoginValues && form.fieldErrors == map[] && form.globalError == None
        else
          values == old(values) && form.fieldErrors == old(form.fieldErrors) && form.globalError == old(form.globalError)
    {
      if m != mode {
        mode := m;
        values := DefaultLoginValues;
        form.fieldErrors := map[];
        form.globalError := None;
      }
    }

    /** The user edits the inputs. */
    method Edit(v: LoginValues)
      modifies this
      ensures values == v && mode == old(mode) && loginCall == old(loginCall)
    {
      values := v;
    }

    /**
      `onSubmit` with the current values; `outcome` is what the login request
      returns. The submit button is disabled while loading.
    */
    method Submit(isEmail: string -> bool, outcome: NetworkOutcome)
      requires !form.loading
      modifies this, form
      ensures mode == old(mode) && !form.loading
      ensures var issues := LoginIssues(mode, old(values), isEmail);
        if issues != [] then
          && loginCall == None
          && values == old(values)
          && form.globalError == None
          && form.fieldErrors == old(form.fieldErrors) + AsFieldErrors(IssuesToMap(issues), Manual)
        else
          && loginCall == Some(LoginBody(mode, Identifier(mode, old(values)), old(values).password))
          && match outcome
             case Succeeded =>
               values == DefaultLoginValues && form.fieldErrors == map[] && form.globalError == None
             case Failed(err) =>
               var mapped := ServerErrorMap(err);
               && values == old(values)
               && if |mapped| > 0 then
                    && form.fieldErrors == old(form.fieldErrors) + ServerFieldErrors(mapped)
                    && form.globalError == (if Global in mapped then Some(mapped[Global]) else None)
                  else
                    && form.fieldErrors == old(form.fieldErrors)
                    && form.globalError == Some(FallbackMessage(err, SignInFailed))
    {
      form.globalError := None;
      loginCall := None;
      var issues := LoginIssues(mode, values, isEmail);
      if issues != [] {
        var errors := ZodToErrorMap(issues);
        form.SetErrors(errors, Manual);
        return;
      }
      form.loading := true;
      var identifier := if mode == Email then values.email else DialCode(values.country) + values.phone;
      loginCall := Some(LoginBody(mode, identifier, values.password));
      match outcome {
        case Succeeded =>
          values := DefaultLoginValues;
          form.fieldErrors := map[];
        case Failed(err) =>
          form.ReportServerFailure(err, SignInFailed);
      }
      form.loading := false;
    }
  }
}
