# Sign-in / sign-up form pipeline

A model of the form pipeline of a small React authentication front end:

- the three zod schemas that check a sign-in (by e-mail or by mobile) or a sign-up;
- `zodToErrorMap`, which folds a schema failure into one message per field;
- `mapServerErrorsToRHF`, which turns a failed request into field messages or a banner;
- the submit handlers of the two pages, which validate, build the request body, and set field errors and the banner;
- the hash router that picks the page.

## Modules

| module | file | what it holds |
|---|---|---|
| `Wrappers` | `wrappers.dfy` | `Option` |
| `Js` | `js.dfy` | the JavaScript values a caught error carries, and the string operations the pipeline uses: truthiness, `?.`, `String`, `join`, UTF-16 `length`, `replace`, `startsWith` |
| `AuthSchemas` | `auth.dfy` | the schemas, as the ordered list of issues each produces; the messages each schema reports for each field |
| `ZodErrorMap` | `zod_error_map.dfy` | `zodToErrorMap`, as a loop proved against a fold |
| `ServerErrors` | `server_errors.dfy` | `mapServerErrorsToRHF`: a classification of the response body, the record it gives, and the loop |
| `Countries` | `countries.dfy` | the country catalog, the placeholder lookup and the dial-code lookup |
| `Forms` | `form_state.dfy` | the field errors, banner and loading flag of a page; the catch block both pages share |
| `SignIn` | `sign_in.dfy` | the sign-in page: mode switch, validation, login identifier, submit |
| `SignUp` | `sign_up.dfy` | the sign-up page: ban check, submit, consent line |
| `Routing` | `routing.dfy` | `getRouteFromHash` and the page choice |

Choices the model makes explicit:

- **Issue order.** A schema's issues are modelled in field declaration order, then check order within a field. zod's string checks do not stop at the first failure, so an empty e-mail fails both `min(1)` and `email()`.
- **Last message wins.** `zodToErrorMap` writes each issue in turn, so a field keeps the message of its last failing check.
- **String length.** `min(n)` counts UTF-16 code units, modelled by `Js.Utf16Length`.
- **E-mail grammar.** The grammar behind `z.string().email()` is a parameter `isEmail` of every member that needs it.
- **Request outcome.** The outcome of a request is an input (`Forms.NetworkOutcome`): either success, or the caught error as a `Js.Value`.

## Model

| member | source | states |
|---|---|---|
| Js.NatToStringInjective | src/services/errors.ts:8-10 | distinct array indices have distinct decimal keys, so `Object.keys` of an `errors` array gives one key per element |
| Js.JoinOfStrings | src/services/errors.ts:10 | `join` on an array of plain strings is the strings separated by the separator |
| Js.Utf16Length | src/lib/validation/auth.ts:5-6 | the length `min` measures lies between the character count and twice it |
| Js.Utf16LengthOfBmp | src/lib/validation/auth.ts:11 | for characters of the Basic Multilingual Plane (ASCII digits among them) that length is the character count |
| Js.IndexOf | src/App.tsx:9 | the position found is the first occurrence of the character, and none is found exactly when it does not occur |
| Js.RemoveFirstSpec | src/App.tsx:9 | `replace('#', '')` removes the first `#` only and keeps everything else in order |
| AuthSchemas.FieldMessagesAppend | src/lib/validation/auth.ts:4-25 | a field's messages from two consecutive groups of checks are those of the first group followed by those of the second |
| AuthSchemas.CheckMessages | src/lib/validation/auth.ts:5-23 | a single check reports its message on its own field exactly when it fails, and nothing on any other field |
| AuthSchemas.EmailLoginByField | src/lib/validation/auth.ts:4-7 | for every field, the e-mail schema's messages are those of its failing checks in chain order |
| AuthSchemas.MobileLoginByField | src/lib/validation/auth.ts:9-13 | the same for the mobile schema |
| AuthSchemas.SignUpByField | src/lib/validation/auth.ts:15-25 | the same for the sign-up schema |
| AuthSchemas.PasswordRule | src/lib/validation/auth.ts:4-21 | in all three schemas the password has the one message exactly when it is shorter than 8 |
| AuthSchemas.PhoneMessages | src/lib/validation/auth.ts:11-20 | a digits check chained with `min(5)` reports nothing exactly when the phone is at least 5 ASCII digits |
| AuthSchemas.LoginPhoneRule | src/lib/validation/auth.ts:11 | the mobile-login phone messages: digits message, then length message, each when its check fails; none iff the phone is accepted |
| AuthSchemas.SignUpPhoneRule | src/lib/validation/auth.ts:20 | the same for the sign-up phone with its own messages |
| AuthSchemas.EmailLoginEmailRule | src/lib/validation/auth.ts:5 | the login e-mail gets the empty message when empty and then the format message when the grammar rejects it, both for "" |
| AuthSchemas.SignUpEmailRule | src/lib/validation/auth.ts:18 | the sign-up e-mail has only the format check: never the empty message |
| AuthSchemas.CountryRule | src/lib/validation/auth.ts:9-19 | the country fails only when empty, in both schemas; any non-empty code passes |
| AuthSchemas.NameRule | src/lib/validation/auth.ts:16-17 | first and last name each fail exactly when empty |
| AuthSchemas.ConsentRule | src/lib/validation/auth.ts:22-23 | risk and terms each fail unless literally `true` (false and missing both fail), with distinct messages |
| AuthSchemas.ConsentAloneFails | src/lib/validation/auth.ts:15-25 | a form correct in every other field fails with exactly the consent issues, risk before terms |
| AuthSchemas.MarketingNeverFails | src/lib/validation/auth.ts:24 | the marketing flag never causes an issue and does not affect the others |
| AuthSchemas.EmailLoginAccepts | src/lib/validation/auth.ts:4-7 | the e-mail schema accepts exactly a non-empty, well-formed e-mail with a password of at least 8 |
| AuthSchemas.MobileLoginAccepts | src/lib/validation/auth.ts:9-13 | the mobile schema accepts exactly a non-empty country, an accepted phone and a password of at least 8 |
| AuthSchemas.SignUpAccepts | src/lib/validation/auth.ts:15-25 | the sign-up schema accepts exactly when every field's condition holds and both consents are `true` |
| ZodErrorMap.ZodToErrorMap | src/utils/zodToErrorMap.ts:2-10 | the loop's record equals the fold of the issues from first to last; no issues give an empty record |
| ZodErrorMap.IssuesToMapKeys | src/utils/zodToErrorMap.ts:6-7 | the record's keys are exactly the keys of the issues (dot-joined path or `_global`) |
| ZodErrorMap.LastIssueWins | src/utils/zodToErrorMap.ts:4-7 | a key holds the message of the last issue filed under it |
| ZodErrorMap.MessagesComeFromIssues | src/utils/zodToErrorMap.ts:7 | every message in the record is that of an issue filed under its key |
| ZodErrorMap.SingleSegmentKey | src/utils/zodToErrorMap.ts:6 | a one-segment path is filed under the segment itself |
| ZodErrorMap.NestedPathKey | src/utils/zodToErrorMap.ts:6 | for every non-empty path, adding a segment adds `.` and that segment to the key, so a nested path is filed under its dot-joined segments (`["address","city"]` under `address.city`); an empty path is filed under `_global` |
| Js.JoinStringsSnoc | src/utils/zodToErrorMap.ts:6 | joining a non-empty list extended by one part is the old join, the separator and that part |
| ZodErrorMap.FieldEntry | src/utils/zodToErrorMap.ts:4-7 | for one-segment issues a field is in the record iff it has a message, and then holds its last message |
| ServerErrors.IndexEntries | src/services/errors.ts:8-9 | `Object.keys` of an array with its entries: each index's decimal string maps to its element, and there are no other keys |
| ServerErrors.MapServerErrorsToRhf | src/services/errors.ts:2-20 | the early returns and the loop give the record of the classified response body |
| ServerErrors.MapTwice | src/services/errors.ts:2-20 | two calls on the same error give the same record |
| ServerErrors.NoDataGivesEmptyRecord | src/services/errors.ts:4-5 | without response data the record is empty |
| ServerErrors.ErrorsObjectRecord | src/services/errors.ts:7-13 | an `errors` object gives exactly its keys, each rendered, and the message is ignored |
| ServerErrors.EmptyErrorsIgnoreMessage | src/services/errors.ts:7-13 | an empty `errors` object gives an empty record even with a message |
| ServerErrors.ErrorsArrayRecord | src/services/errors.ts:7-13 | an `errors` array gives its elements under their decimal indices and nothing else |
| ServerErrors.MessageGivesGlobal | src/services/errors.ts:16-18 | without an `errors` object a truthy message gives exactly `{ _global: String(message) }` |
| ServerErrors.NeitherGivesEmpty | src/services/errors.ts:7-19 | with neither an `errors` object nor a truthy message the record is empty |
| ServerErrors.ArrayEntryJoinedBySpaces | src/services/errors.ts:10 | an entry that is an array of strings becomes them joined by single spaces |
| ServerErrors.FieldErrorExample | src/services/errors.ts:1-13 | `{errors: {email: "already used"}}` gives `{email: "already used"}` |
| ServerErrors.ArrayErrorExample | src/services/errors.ts:7-13 | `{errors: {phone: ["too short", "invalid"]}}` gives `{phone: "too short invalid"}` |
| ServerErrors.MessageExample | src/services/errors.ts:16-18 | `{message: "server unavailable"}` gives `{_global: "server unavailable"}` |
| Countries.Find | src/pages/SignInPage.tsx:41 | the entry found is the first with the code; nothing is found iff no entry has it |
| Countries.SelectedCountry | src/pages/SignInPage.tsx:41-42 | the placeholder entry is from the catalog, has the code when the catalog has it, and is the first entry otherwise |
| Countries.DialCode | src/pages/SignInPage.tsx:72-73 | the dial code is that of an entry with the code, or empty when the catalog has none |
| Countries.CodesDistinct | src/pages/SignInPage.tsx:17-22 | the catalog's codes are distinct |
| Countries.LookupByCode | src/pages/SignInPage.tsx:40-73 | looking up a catalog entry's code finds that entry, for placeholder and dial code alike |
| Forms.ServerFieldErrorsSplit | src/pages/SignInPage.tsx:84-92 | a server failure sets a field error on exactly the non-`_global` keys, each with its message and type `server` |
| Forms.MessageOnlyFailureSetsNoField | src/pages/SignInPage.tsx:82-96 | a body with only a message sets no field error; the record is non-empty iff the message is truthy, and then `_global` is the message |
| Forms.EmptyErrorsFallBackToMessage | src/pages/SignInPage.tsx:93-96 | an empty `errors` object gives an empty record even with a message, so the banner shows that message (any non-empty string) rather than the default text |
| Forms.FormState.SetErrors | src/pages/SignInPage.tsx:51-52 | every key of the record becomes a field error of the given type, and the other fields are kept |
| Forms.FormState.ApplyServerRecord | src/pages/SignInPage.tsx:84-92 | `_global` goes to the banner and every other key to a `server` field error |
| Forms.FormState.ReportServerFailure | src/pages/SignInPage.tsx:81-97 | a non-empty record is dispatched; an empty one puts the body's message, or the page's default text, on the banner |
| SignIn.EmailModeFields | src/pages/SignInPage.tsx:48-55 | e-mail mode validates only e-mail and password: the issues depend on nothing else and name nothing else |
| SignIn.MobileModeFields | src/pages/SignInPage.tsx:56-64 | mobile mode validates only country, phone and password |
| SignIn.MobileIdentifier | src/pages/SignInPage.tsx:68-75 | the mobile identifier is the matching entry's dial code followed by the phone, or the bare phone for an unknown code |
| SignIn.UsIdentifierExample | src/pages/SignInPage.tsx:68-75 | United States with `2015550123` gives `+12015550123` |
| SignIn.UnknownCountryAccepted | src/pages/SignInPage.tsx:40-75 | an unknown non-empty code passes validation, gives the bare phone as identifier and the first entry's placeholder |
| SignIn.EmptyEmailErrors | src/pages/SignInPage.tsx:48-55 | an empty e-mail with a short password leaves errors on exactly e-mail and password, the e-mail one being the format message when the grammar rejects "" |
| SignIn.EmptyPhoneError | src/pages/SignInPage.tsx:56-64 | an empty phone shows the length message, the later of its two issues |
| SignIn.SignInPage.constructor | src/pages/SignInPage.tsx:25-33 | the page starts in e-mail mode with the default values, no errors, no banner, not loading |
| SignIn.SignInPage.SelectMode | src/pages/SignInPage.tsx:35-38 | changing the mode resets the values to the defaults and clears field errors and banner; re-selecting the mode changes nothing |
| SignIn.SignInPage.Edit | src/pages/SignInPage.tsx:30-33 | editing replaces the values and nothing else |
| SignIn.SignInPage.Submit | src/pages/SignInPage.tsx:44-101 | invalid values set manual field errors and send nothing; valid ones send `{type, identifier, password}`; success resets the form; failure is dispatched; loading ends false |
| SignUp.BannedIsIran | src/pages/SignUpPage.tsx:22 | only Iran is banned, and it is a catalog code |
| SignUp.BannedPassesSchema | src/pages/SignUpPage.tsx:22-54 | a banned country otherwise complete passes the schema, so the handler's ban check is what refuses it |
| SignUp.SchemaAcceptsExactly | src/lib/validation/auth.ts:15-25 | the field-by-field acceptance condition holds exactly when the sign-up schema reports no issue |
| SignUp.DefaultValues | src/pages/SignUpPage.tsx:31-41 | the defaults pass both consent checks but fail the name check, and are not banned |
| SignUp.ConsentLineRule | src/pages/SignUpPage.tsx:158-162 | the consent line is absent iff neither consent has an error; a non-empty risk message takes precedence |
| SignUp.ConsentLineForSchema | src/pages/SignUpPage.tsx:158-162 | with schema-reported consent errors the line shows the risk message whenever risk is unticked, else the terms message, else nothing |
| SignUp.SignUpPage.constructor | src/pages/SignUpPage.tsx:25-42 | the page starts with the default values, no errors, no banner, not loading |
| SignUp.SignUpPage.Edit | src/pages/SignUpPage.tsx:31-41 | editing replaces the values and nothing else |
| SignUp.SignUpPage.Register | src/pages/SignUpPage.tsx:56-80 | the values are sent; success resets the form and goes to `#/signin`; failure is dispatched as on sign-in with the sign-up default text |
| SignUp.SignUpPage.Submit | src/pages/SignUpPage.tsx:48-81 | a banned country sets the ban banner and sends nothing; otherwise the values are sent; success resets and goes to `#/signin`; failure is dispatched; loading ends false |
| Routing.RouteFromHash | src/App.tsx:6-10 | the route is never empty and is no longer than the hash unless it is the `/signin` default |
| Routing.RouteStripsFirstHash | src/App.tsx:9 | the route is the hash without its first `#`; an empty hash or a lone `#` gives `/signin` |
| Routing.SecondHashKept | src/App.tsx:9-26 | `#/signup#x` routes to `/signup#x` and still shows the sign-up page |
| Routing.KnownHashes | src/App.tsx:6-27 | `#/signup` shows sign-up, `#/signin` and the empty hash show sign-in |
| Routing.SignUpPrefix | src/App.tsx:26-27 | the sign-up page is shown exactly for routes beginning with `/signup` |

## Left out

- I/O: toasts, `console.log`, the HTTP client (`src/services/api.ts` is not part of this model) and the `hashchange` listener are not modelled. A request's result is an input, and a page's navigation is returned as the hash it sets.
- Asynchrony: `await`, re-renders and effect scheduling are not modelled. A submit runs start to finish as one step. The form is never submitted while loading, because the button is disabled then.
- The form library's own behaviour is not modelled: registration, `watch`, and the clearing or re-validation of field errors that `handleSubmit` does before calling the handler. Field errors set by a submit are added to those already present.
- The sign-up resolver is not modelled. It is the step that runs the schema before `onSubmit` and files its issues as field errors. `SignUp.SignUpPage.Submit` requires values the schema accepts (`SignUp.SchemaAccepts`). `SignUp.ConsentLineForSchema` takes any error record whose consent entries agree with the schema's messages.
- The e-mail grammar of `z.string().email()` is a parameter, not a definition.
- Numbers in a response body are integers. Floating-point rendering by `String` is not modelled, and neither are `Symbol`s or functions.
- Objects are modelled as maps, so `Object.keys` order is not captured. Every loop over keys is proved for any order.
- Only the sign-in page's catalog copy is cited. The sign-up page declares an identical copy (src/pages/SignUpPage.tsx:15-20).
- Rendering is not modelled: the password visibility toggle, icons and flags.
- Mobile identifier: a country code the catalog does not hold gives an empty dial code (src/pages/SignInPage.tsx:72-73), so the identifier is the bare phone; only the placeholder falls back to the first entry.
- Country: the schemas only require a non-empty string (src/lib/validation/auth.ts:10 and :19); there is no catalog membership check (`SignIn.UnknownCountryAccepted`).
- Forms.FallbackMessage: renders a truthy non-string `message` through `String`, whereas the pages put the raw value on the banner (src/pages/SignInPage.tsx:94-95, src/pages/SignUpPage.tsx:74-75); for `true`, an array or an object the model's banner holds "true", the comma-joined elements or "[object Object]", while the page holds the value itself (React renders an array's elements without separators and fails on an object).
- ServerErrors.RecordOf: two JavaScript corner cases of src/services/errors.ts:10 and :17 are not modelled. `String` and `join` throw a TypeError on an object whose own `toString` is not a function (for example `{"toString": 1}`), where the model renders "[object Object]". An `errors` key `__proto__` is silently not stored by `out[k] = …`, where the model keeps it.
