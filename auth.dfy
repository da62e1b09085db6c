/**
  The three form schemas of the application: e-mail login, mobile login and
  sign-up. Each schema is a function from the candidate fields to the list
  of issues zod reports, in zod's order: fields in declaration order, and
  within a field every failing check in the order the checks are chained
  (zod's string checks do not stop at the first failure).

  The e-mail grammar zod applies is not modelled: it is the parameter
  `isEmail`.
*/
module AuthSchemas {

  import opened Wrappers
  import opened Js

  /** A zod issue: the path of the offending field and its message. */
  datatype Issue = Issue(path: seq<string>, message: string)

  /** The record the sign-up form produces (`SignUpData`); the check boxes may be left undefined. */
  datatype SignUpValues = SignUpValues(
    firstName: string,
    lastName: string,
    email: string,
    country: string,
    phone: string,
    password: string,
    risk: Option<bool>,
    tcs: Option<bool>,
    marketing: Option<bool>)

  // The messages, as the schemas spell them. Only their equality and distinctness matter to the model.
  const MsgEmailRequired := "ایمیل نباید خالی باشد"
  const MsgEmailInvalid := "ایمیل نامعتبر است"
  const MsgPassword := "رمز عبور باید حداقل ۸ کاراکتر باشد"
  const MsgLoginCountry := "کشور انتخاب شود"
  const MsgLoginPhoneDigits := "فقط از ارقام استفاده کنید"
  const MsgLoginPhoneInvalid := "شماره موبایل نامعتبر است"
  const MsgFirstName := "نام را وارد کنید"
  const MsgLastName := "نام خانوادگی را وارد کنید"
  const MsgSignUpCountry := "کشور را انتخاب کنید"
  const MsgSignUpPhoneDigits := "شماره موبایل فقط باید شامل ارقام باشد"
  const MsgSignUpPhoneShort := "شماره موبایل خیلی کوتاه است"
  const MsgRisk := "باید ریسک را بپذیرید"
  const MsgTcs := "باید قوانین و مقررات را بپذیرید"

  /** `\d` in a regular expression without the `u` flag: an ASCII digit. */
  predicate IsAsciiDigit(c: char) {
    '0' <= c <= '9'
  }

  /** `/^\d+$/.test(s)` */
  predicate AllAsciiDigits(s: string) {
    |s| > 0 && forall i :: 0 <= i < |s| ==> IsAsciiDigit(s[i])
  }

  // The individual zod checks, each contributing at most one issue on a one-segment path.

  /** A check on `field` that reports `msg` when it fails. */
  function Check(field: string, failed: bool, msg: string): seq<Issue> {
    if failed then [Issue([field], msg)] else []
  }

  /** `.min(n, msg)` on a string: its UTF-16 length must be at least `n`. */
  function MinLength(field: string, value: string, n: nat, msg: string): seq<Issue> {
    Check(field, Utf16Length(value) < n, msg)
  }

  /** `.regex(/^\d+$/, msg)` */
  function DigitsOnly(field: string, value: string, msg: string): seq<Issue> {
    Check(field, !AllAsciiDigits(value), msg)
  }

  /** `.email(msg)` */
  function EmailFormat(field: string, value: string, isEmail: string -> bool, msg: string): seq<Issue> {
    Check(field, !isEmail(value), msg)
  }

  /** `z.literal(true, { message: msg })`: anything but exactly `true` fails, `undefined` included. */
  function LiteralTrue(field: string, value: Option<bool>, msg: string): seq<Issue> {
    Check(field, value != Some(true), msg)
  }

  /** The password rule, written identically in all three schemas. */
  function PasswordIssues(password: string): seq<Issue> {
    MinLength("password", password, 8, MsgPassword)
  }

  /** `emailLoginSchema` */
  function EmailLoginIssues(email: string, password: string, isEmail: string -> bool): seq<Issue> {
    MinLength("email", email, 1, MsgEmailRequired)
    + EmailFormat("email", email, isEmail, MsgEmailInvalid)
    + PasswordIssues(password)
  }

  /** `mobileLoginSchema` */
  function MobileLoginIssues(country: string, phone: string, password: string): seq<Issue> {
    MinLength("country", country, 1, MsgLoginCountry)
    + DigitsOnly("phone", phone, MsgLoginPhoneDigits)
    + MinLength("phone", phone, 5, MsgLoginPhoneInvalid)
    + PasswordIssues(password)
  }

  /** `signUpSchema`; `marketing` is an optional boolean and contributes no check. */
  function SignUpIssues(d: SignUpValues, isEmail: string -> bool): seq<Issue> {
    MinLength("firstName", d.firstName, 1, MsgFirstName)
    + MinLength("lastName", d.lastName, 1, MsgLastName)
    + EmailFormat("email", d.email, isEmail, MsgEmailInvalid)
    + MinLength("country", d.country, 1, MsgSignUpCountry)
    + DigitsOnly("phone", d.phone, MsgSignUpPhoneDigits)
    + MinLength("phone", d.phone, 5, MsgSignUpPhoneShort)
    + PasswordIssues(d.password)
    + LiteralTrue("risk", d.risk, MsgRisk)
    + LiteralTrue("tcs", d.tcs, MsgTcs)
  }

  /** The messages of the issues reported on field `f`, in order. */
  function FieldMessages(issues: seq<Issue>, f: string): seq<string> {
    if issues == [] then []
    else (if issues[0].path == [f] then [issues[0].message] else []) + FieldMessages(issues[1..], f)
  }

  lemma {:induction false} FieldMessagesAppend(a: seq<Issue>, b: seq<Issue>, f: string)
    ensures FieldMessages(a + b, f) == FieldMessages(a, f) + FieldMessages(b, f)
  {
    if a != [] {
      assert (a + b)[0] == a[0];
      assert (a + b)[1..] == a[1..] + b;
      FieldMessagesAppend(a[1..], b, f);
    } else {
      assert a + b == b;
    }
  }

  /** What one check reports on field `f`. */
  function Reported(field: string, failed: bool, msg: string, f: string): seq<string> {
    if failed && field == f then [msg] else []
  }

  lemma CheckMessages(field: string, failed: bool, msg: string, f: string)
    ensures FieldMessages(Check(field, failed, msg), f) == Reported(field, failed, msg, f)
  {
    if failed {
      assert Check(field, failed, msg)[1..] == [];
      assert [field] == [f] <==> field == f;
    }
  }

  /** The e-mail login schema, field by field. */
  lemma EmailLoginByField(email: string, password: string, isEmail: string -> bool, f: string)
    ensures FieldMessages(EmailLoginIssues(email, password, isEmail), f) ==
      Reported("email", Utf16Length(email) < 1, MsgEmailRequired, f)
      + Reported("email", !isEmail(email), MsgEmailInvalid, f)
      + Reported("password", Utf16Length(password) < 8, MsgPassword, f)
  {
    var a := MinLength("email", email, 1, MsgEmailRequired);
    var b := EmailFormat("email", email, isEmail, MsgEmailInvalid);
    var c := PasswordIssues(password);
    FieldMessagesAppend(a, b, f);
    FieldMessagesAppend(a + b, c, f);
    CheckMessages("email", Utf16Length(email) < 1, MsgEmailRequired, f);
    CheckMessages("email", !isEmail(email), MsgEmailInvalid, f);
    CheckMessages("password", Utf16Length(password) < 8, MsgPassword, f);
  }

  /** The mobile login schema, field by field. */
  lemma MobileLoginByField(country: string, phone: string, password: string, f: string)
    ensures FieldMessages(MobileLoginIssues(country, phone, password), f) ==
      Reported("country", Utf16Length(country) < 1, MsgLoginCountry, f)
      + Reported("phone", !AllAsciiDigits(phone), MsgLoginPhoneDigits, f)
      + Reported("phone", Utf16Length(phone) < 5, MsgLoginPhoneInvalid, f)
      + Reported("password", Utf16Length(password) < 8, MsgPassword, f)
  {
    var a := MinLength("country", country, 1, MsgLoginCountry);
    var b := DigitsOnly("phone", phone, MsgLoginPhoneDigits);
    var c := MinLength("phone", phone, 5, MsgLoginPhoneInvalid);
    var e := PasswordIssues(password);
    FieldMessagesAppend(a, b, f);
    FieldMessagesAppend(a + b, c, f);
    FieldMessagesAppend(a + b + c, e, f);
    CheckMessages("country", Utf16Length(country) < 1, MsgLoginCountry, f);
    CheckMessages("phone", !AllAsciiDigits(phone), MsgLoginPhoneDigits, f);
    CheckMessages("phone", Utf16Length(phone) < 5, MsgLoginPhoneInvalid, f);
    CheckMessages("password", Utf16Length(password) < 8, MsgPassword, f);
  }

  /** The sign-up schema, field by field. */
  lemma SignUpByField(d: SignUpValues, isEmail: string -> bool, f: string)
    ensures FieldMessages(SignUpIssues(d, isEmail), f) ==
      Reported("firstName", Utf16Length(d.firstName) < 1, MsgFirstName, f)
      + Reported("lastName", Utf16Length(d.lastName) < 1, MsgLastName, f)
      + Reported("email", !isEmail(d.email), MsgEmailInvalid, f)
      + Reported("country", Utf16Length(d.country) < 1, MsgSignUpCountry, f)
      + Reported("phone", !AllAsciiDigits(d.phone), MsgSignUpPhoneDigits, f)
      + Reported("phone", Utf16Length(d.phone) < 5, MsgSignUpPhoneShort, f)
      + Reported("password", Utf16Length(d.password) < 8, MsgPassword, f)
      + Reported("risk", d.risk != Some(true), MsgRisk, f)
      + Reported("tcs", d.tcs != Some(true), MsgTcs, f)
  {
    var s1 := MinLength("firstName", d.firstName, 1, MsgFirstName);
    var s2 := MinLength("lastName", d.lastName, 1, MsgLastName);
    var s3 := EmailFormat("email", d.email, isEmail, MsgEmailInvalid);
    var s4 := MinLength("country", d.country, 1, MsgSignUpCountry);
    var s5 := DigitsOnly("phone", d.phone, MsgSignUpPhoneDigits);
    var s6 := MinLength("phone", d.phone, 5, MsgSignUpPhoneShort);
    var s7 := PasswordIssues(d.password);
    var s8 := LiteralTrue("risk", d.risk, MsgRisk);
    var s9 := LiteralTrue("tcs", d.tcs, MsgTcs);
    FieldMessagesAppend(s1, s2, f);
    FieldMessagesAppend(s1 + s2, s3, f);
    FieldMessagesAppend(s1 + s2 + s3, s4, f);
    FieldMessagesAppend(s1 + s2 + s3 + s4, s5, f);
    FieldMessagesAppend(s1 + s2 + s3 + s4 + s5, s6, f);
    FieldMessagesAppend(s1 + s2 + s3 + s4 + s5 + s6, s7, f);
    FieldMessagesAppend(s1 + s2 + s3 + s4 + s5 + s6 + s7, s8, f);
    FieldMessagesAppend(s1 + s2 + s3 + s4 + s5 + s6 + s7 + s8, s9, f);
    CheckMessages("firstName", Utf16Length(d.firstName) < 1, MsgFirstName, f);
    CheckMessages("lastName", Utf16Length(d.lastName) < 1, MsgLastName, f);
    CheckMessages("email", !isEmail(d.email), MsgEmailInvalid, f);
    CheckMessages("country", Utf16Length(d.country) < 1, MsgSignUpCountry, f);
    CheckMessages("phone", !AllAsciiDigits(d.phone), MsgSignUpPhoneDigits, f);
    CheckMessages("phone", Utf16Length(d.phone) < 5, MsgSignUpPhoneShort, f);
    CheckMessages("password", Utf16Length(d.password) < 8, MsgPassword, f);
    CheckMessages("risk", d.risk != Some(true), MsgRisk, f);
    CheckMessages("tcs", d.tcs != Some(true), MsgTcs, f);
  }

  /** A password is rejected iff it is shorter than 8 UTF-16 units, with the same message in all three schemas. */
  lemma PasswordRule(email: string, country: string, phone: string, password: string,
                     d: SignUpValues, isEmail: string -> bool)
    ensures FieldMessages(EmailLoginIssues(email, password, isEmail), "password") ==
            (if Utf16Length(password) < 8 then [MsgPassword] else [])
    ensures FieldMessages(MobileLoginIssues(country, phone, password), "password") ==
            (if Utf16Length(password) < 8 then [MsgPassword] else [])
    ensures FieldMessages(SignUpIssues(d, isEmail), "password") ==
            (if Utf16Length(d.password) < 8 then [MsgPassword] else [])
  {
    EmailLoginByField(email, password, isEmail, "password");
    MobileLoginByField(country, phone, password, "password");
    SignUpByField(d, isEmail, "password");
  }

  /** A phone is accepted iff it is a non-empty run of ASCII digits at least 5 long. */
  predicate PhoneAccepted(phone: string) {
    AllAsciiDigits(phone) && |phone| >= 5
  }

  /** The phone messages of a schema that chains the digits check and then `.min(5)`. */
  lemma PhoneMessages(phone: string, digitsMsg: string, shortMsg: string)
    ensures (if AllAsciiDigits(phone) then [] else [digitsMsg]) + (if Utf16Length(phone) < 5 then [shortMsg] else []) == []
        <==> PhoneAccepted(phone)
  {
    if AllAsciiDigits(phone) {
      forall i | 0 <= i < |phone| ensures phone[i] as int <= 0xFFFF {
        assert IsAsciiDigit(phone[i]);
      }
      Utf16LengthOfBmp(phone);
    }
  }

  /** Mobile login: the phone messages, and acceptance iff `PhoneAccepted`; any character that is not an ASCII digit yields the digits message. */
  lemma LoginPhoneRule(country: string, phone: string, password: string)
    ensures FieldMessages(MobileLoginIssues(country, phone, password), "phone") ==
            (if AllAsciiDigits(phone) then [] else [MsgLoginPhoneDigits])
            + (if Utf16Length(phone) < 5 then [MsgLoginPhoneInvalid] else [])
    ensures FieldMessages(MobileLoginIssues(country, phone, password), "phone") == [] <==> PhoneAccepted(phone)
    ensures !AllAsciiDigits(phone) ==> MsgLoginPhoneDigits in FieldMessages(MobileLoginIssues(country, phone, password), "phone")
  {
    MobileLoginByField(country, phone, password, "phone");
    PhoneMessages(phone, MsgLoginPhoneDigits, MsgLoginPhoneInvalid);
  }

  /** Sign-up: the same phone rule, with the sign-up messages. */
  lemma SignUpPhoneRule(d: SignUpValues, isEmail: string -> bool)
    ensures FieldMessages(SignUpIssues(d, isEmail), "phone") ==
            (if AllAsciiDigits(d.phone) then [] else [MsgSignUpPhoneDigits])
            + (if Utf16Length(d.phone) < 5 then [MsgSignUpPhoneShort] else [])
    ensures FieldMessages(SignUpIssues(d, isEmail), "phone") == [] <==> PhoneAccepted(d.phone)
    ensures !AllAsciiDigits(d.phone) ==> MsgSignUpPhoneDigits in FieldMessages(SignUpIssues(d, isEmail), "phone")
  {
    SignUpByField(d, isEmail, "phone");
    PhoneMessages(d.phone, MsgSignUpPhoneDigits, MsgSignUpPhoneShort);
  }

  /**
    E-mail login: an empty e-mail gets the "must not be empty" message (followed by the
    format message when the grammar rejects "" too); a non-empty one gets only the format message.
  */
  lemma EmailLoginEmailRule(email: string, password: string, isEmail: string -> bool)
    ensures FieldMessages(EmailLoginIssues(email, password, isEmail), "email") ==
            (if email == "" then [MsgEmailRequired] else [])
            + (if isEmail(email) then [] else [MsgEmailInvalid])
  {
    EmailLoginByField(email, password, isEmail, "email");
  }

  /** Sign-up: the e-mail has the format check only, with no separate empty-string message. */
  lemma SignUpEmailRule(d: SignUpValues, isEmail: string -> bool)
    ensures FieldMessages(SignUpIssues(d, isEmail), "email") == (if isEmail(d.email) then [] else [MsgEmailInvalid])
    ensures MsgEmailRequired !in FieldMessages(SignUpIssues(d, isEmail), "email")
  {
    SignUpByField(d, isEmail, "email");
  }

  /** `country` is only required to be non-empty, in both schemas that have it. */
  lemma CountryRule(country: string, phone: string, password: string, d: SignUpValues, isEmail: string -> bool)
    ensures FieldMessages(MobileLoginIssues(country, phone, password), "country") ==
            (if country == "" then [MsgLoginCountry] else [])
    ensures FieldMessages(SignUpIssues(d, isEmail), "country") ==
            (if d.country == "" then [MsgSignUpCountry] else [])
  {
    MobileLoginByField(country, phone, password, "country");
    SignUpByField(d, isEmail, "country");
  }

  /** Sign-up: first and last name each fail iff empty. */
  lemma NameRule(d: SignUpValues, isEmail: string -> bool)
    ensures FieldMessages(SignUpIssues(d, isEmail), "firstName") == (if d.firstName == "" then [MsgFirstName] else [])
    ensures FieldMessages(SignUpIssues(d, isEmail), "lastName") == (if d.lastName == "" then [MsgLastName] else [])
  {
    SignUpByField(d, isEmail, "firstName");
    SignUpByField(d, isEmail, "lastName");
  }

  /** Sign-up: each consent flag passes only when exactly `true`, each with its own message. */
  lemma ConsentRule(d: SignUpValues, isEmail: string -> bool)
    ensures FieldMessages(SignUpIssues(d, isEmail), "risk") == (if d.risk == Some(true) then [] else [MsgRisk])
    ensures FieldMessages(SignUpIssues(d, isEmail), "tcs") == (if d.tcs == Some(true) then [] else [MsgTcs])
    ensures MsgRisk != MsgTcs
  {
    SignUpByField(d, isEmail, "risk");
    SignUpByField(d, isEmail, "tcs");
  }

  /** Sign-up: a refused consent fails the record even when every other field is valid. */
  lemma ConsentAloneFails(d: SignUpValues, isEmail: string -> bool)
    requires d.firstName != "" && d.lastName != "" && isEmail(d.email) && d.country != ""
    requires PhoneAccepted(d.phone) && Utf16Length(d.password) >= 8
    ensures SignUpIssues(d, isEmail) ==
            (if d.risk == Some(true) then [] else [Issue(["risk"], MsgRisk)])
            + (if d.tcs == Some(true) then [] else [Issue(["tcs"], MsgTcs)])
  {
    PhoneMessages(d.phone, MsgSignUpPhoneDigits, MsgSignUpPhoneShort);
  }

  /** Sign-up: `marketing`, present or absent, never causes an issue. */
  lemma MarketingNeverFails(d: SignUpValues, isEmail: string -> bool, m: Option<bool>)
    ensures FieldMessages(SignUpIssues(d, isEmail), "marketing") == []
    ensures SignUpIssues(d.(marketing := m), isEmail) == SignUpIssues(d, isEmail)
  {
    SignUpByField(d, isEmail, "marketing");
  }

  /** E-mail login accepts exactly the records whose fields all pass. */
  lemma EmailLoginAccepts(email: string, password: string, isEmail: string -> bool)
    ensures EmailLoginIssues(email, password, isEmail) == [] <==>
            email != "" && isEmail(email) && Utf16Length(password) >= 8
  {
  }

  /** Mobile login accepts exactly the records whose fields all pass. */
  lemma MobileLoginAccepts(country: string, phone: string, password: string)
    ensures MobileLoginIssues(country, phone, password) == [] <==>
            country != "" && PhoneAccepted(phone) && Utf16Length(password) >= 8
  {
    PhoneMessages(phone, MsgLoginPhoneDigits, MsgLoginPhoneInvalid);
  }

  /** Sign-up accepts exactly the records whose fields all pass. */
  lemma SignUpAccepts(d: SignUpValues, isEmail: string -> bool)
    ensures SignUpIssues(d, isEmail) == [] <==>
            d.firstName != "" && d.lastName != "" && isEmail(d.email) && d.country != ""
            && PhoneAccepted(d.phone) && Utf16Length(d.password) >= 8
            && d.risk == Some(true) && d.tcs == Some(true)
  {
    PhoneMessages(d.phone, MsgSignUpPhoneDigits, MsgSignUpPhoneShort);
  }
}
