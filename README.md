# verdure-lambdas confirmation mailer, modelled in Dafny

This project models the confirmation-email pipeline of verdure-lambdas. An SQS
batch delivers queued `UserConfirmation` records as JSON bodies. The handler
decodes each body, looks up the no-reply sender address, and sends one SES
template e-mail per record. It stops at the first failure.

The model has five modules:

- `Wrappers`: `Option` and `Result`, the Go `(value, error)` pair.
- `Ascii`:
  - ASCII `strings.ToLower` and `strings.ToUpper`;
  - the `%d` rendering of a signed integer, with a reader that inverts it.
- `Json`: the value tree produced by `encoding/json`'s text parser. Whether a
  body is well-formed JSON is a `Document`: `Malformed` or `Parsed(value)`.
- `Confirmation` (`internal/mdl/confirmation.go`):
  - the `ConfirmationType` open string type and its two named values;
  - the `UserConfirmation` record;
  - `ExpiresAt`, with Go's int64 wrap-around written out;
  - `ConfirmUrL`, with a reader for the links it writes;
  - `UserConfirmationFromJson`: how `json.Unmarshal` binds a parsed value to
    the record's tagged fields;
  - `JSON()` as the value `json.Marshal` produces (`ToJson`).
- `SqsSes` (`cmd/ses/sqs_ses.go`):
  - `determineTemplate`;
  - the template data and the `SendEmailInput` built by `sendEmail`;
  - `sendEmail` as a method making one send;
  - `handleRequest` as a method with a `while` loop over the batch bodies.

The handler is proved against a specification function, `HandleBatch`. It
reduces a batch to one `Step` per record: what decoding, the sender lookup and
the send did with that record. `RunSteps` then processes the steps fail-fast.
The lemmas about `RunSteps` and `HandleBatch` state the ordering and abort
properties.

What the code cannot see is a value of type `Env`:

- the configuration load (`config.LoadDefaultConfig`);
- the text-level JSON parse;
- the Secrets Manager lookup (`settings.GetNoReplySecret`);
- the SES call (`sesSvc.SendEmail`).

The k-th lookup and the k-th send of an invocation are answered as a function
of k, so a collaborator may answer differently on different records. The
requests the handler submits are returned as a ghost send log.

The model keeps three facts about the code:

- `ConfirmationType` is an open string type, not a closed enumeration. Every
  value other than `NewUser`, including unknown ones, selects the
  password-reset template (`cmd/ses/sqs_ses.go:157`).
- The template data has a space after the colon: `{"url": "<link>"}`, with
  the link inserted unescaped (`cmd/ses/sqs_ses.go:97`).
- The struct at `internal/mdl/confirmation.go:18-25` declares no `Lang` field.
  Yet `sendEmail` (`cmd/ses/sqs_ses.go:96`) and the decoder test
  (`internal/mdl/confirmation_test.go:16,35`) use one, bound to the JSON key
  `lang`. The model's record carries `lang` as a string field.

## Model

| member | source | states |
|---|---|---|
| `Ascii.LowerChar` | internal/mdl/confirmation.go:46 | ASCII lower-casing of one character: the result is never upper-case, non-letters are unchanged, and an upper-case letter moves down by 32 to its lower-case form |
| `Ascii.UpperChar` | cmd/ses/sqs_ses.go:153 | ASCII upper-casing of one character: the result is never lower-case, non-letters are unchanged, and a lower-case letter moves up by 32 |
| `Ascii.Lower` | internal/mdl/confirmation.go:46 | `strings.ToLower` keeps the length and maps character by character |
| `Ascii.Upper` | cmd/ses/sqs_ses.go:153 | `strings.ToUpper` keeps the length and maps character by character |
| `Ascii.LowerIsLowerAndIdempotent` | internal/mdl/confirmation.go:46 | lower-cased text has no upper-case letter, and lower-casing it again changes nothing |
| `Ascii.LowerKeepsSlashes` | internal/mdl/confirmation.go:46 | the lower-cased type has a '/' exactly when the type does |
| `Ascii.NatToDecimal` | internal/mdl/confirmation.go:47 | the decimal digits of a natural number: at least one digit, and no leading zero unless the number is 0 |
| `Ascii.IntToDecimal` | internal/mdl/confirmation.go:47 | `%d` of a signed integer: non-empty, starts with '-' exactly for negative numbers, and everything else is digits |
| `Ascii.NatToDecimalRoundTrip` | internal/mdl/confirmation.go:47 | reading the digits back gives the number |
| `Ascii.IntToDecimalRoundTrip` | internal/mdl/confirmation.go:47 | `ParseDecimal` inverts the `%d` rendering for every integer |
| `Ascii.IntToDecimalInjective` | internal/mdl/confirmation.go:47 | different ids render differently |
| `Ascii.IntToDecimalHasNoSlash` | internal/mdl/confirmation.go:47 | the id segment never holds a '/' |
| `Confirmation.WrapInt64` | internal/mdl/confirmation.go:29 | int64 two's-complement wrap-around: the value itself when in range, and always congruent to the exact value modulo 2^64 |
| `Confirmation.ExpiresAt` | internal/mdl/confirmation.go:28-30 | the expiry in nanoseconds is `ExpiresAtMillis * 1_000_000` whenever that fits in int64, and otherwise the int64 wrap-around of it |
| `Confirmation.ExpiresAtExactInRange` | internal/mdl/confirmation_test.go:47-50 | every millisecond value up to about the year 2262 converts exactly |
| `Confirmation.ExpiresAtWrapsPastRange` | internal/mdl/confirmation.go:29 | one millisecond past that range, the product wraps to a negative instant |
| `Confirmation.KindSegment` | internal/mdl/confirmation.go:46 | the type segment has the type's length and no upper-case letter |
| `Confirmation.ConfirmUrl` | internal/mdl/confirmation.go:43-49 | no escaping: the base URL is a prefix, the token is a suffix, and the length is the sum of the parts plus the three separators |
| `Confirmation.NewUserSegment` | internal/mdl/confirmation.go:13 | the `NewUser` type segment is `newuser` |
| `Confirmation.ResetPasswordSegment` | internal/mdl/confirmation.go:14 | the `ResetPassword` type segment is `resetpassword` |
| `Confirmation.ConfirmUrlWithSegment` | internal/mdl/confirmation.go:44-48 | the link is base, `/confirm/`, the type segment, `/`, the decimal id, `/`, the token |
| `Confirmation.ConfirmUrlWithHead` | internal/mdl/confirmation.go:44-48 | the same link, with the text between the base URL and the id given as one string |
| `Confirmation.ConfirmUrlNewUser` | internal/mdl/confirmation.go:43-49 | a `NewUser` record's link is `<base>/confirm/newuser/<id>/<token>` |
| `Confirmation.ConfirmUrlResetPassword` | internal/mdl/confirmation.go:43-49 | a `ResetPassword` record's link is `<base>/confirm/resetpassword/<id>/<token>` |
| `Confirmation.SplitAtSlash` | internal/mdl/confirmation.go:44 | splitting at the first '/' gives a '/'-free head that rebuilds the input, and fails exactly when the input has no '/' |
| `Confirmation.SplitAtSlashOfJoin` | internal/mdl/confirmation.go:44 | splitting a '/'-joined pair whose head has no '/' gives the pair back |
| `Confirmation.ConfirmUrlRoundTrip` | internal/mdl/confirmation.go:43-49 | for a type without '/', `ParseConfirmUrl` reads back the lower-cased type, the user id and the whole token |
| `Confirmation.ConfirmUrlDistinguishesUsers` | internal/mdl/confirmation.go:43-49 | two links with the same base and '/'-free types are equal only if the user ids, the tokens and the lower-cased types are |
| `Confirmation.ConfirmUrlExample` | internal/mdl/confirmation.go:43-49 | a `NewUser` record with id 123 gets `<base>/confirm/newuser/123/<token>` |
| `Confirmation.BindString` | internal/mdl/confirmation.go:61 | a string field binds exactly a JSON string or null, to that string or to `""`; anything else is a type error |
| `Confirmation.BindInt` | internal/mdl/confirmation.go:61 | an integer field binds exactly an in-range integer or null, to that integer or to 0, so a bound value always fits the Go field's width; anything else is a type error |
| `Confirmation.BindObject` | internal/mdl/confirmation.go:61 | an object binds exactly when every tagged member fits its field. Then every field holds its member's value, and absent or null members leave the zero value. Otherwise the result is a type error |
| `Confirmation.UserConfirmationFromJson` | internal/mdl/confirmation.go:52-68 | exactly one of a record and an error. Malformed text is a syntax error. Success holds exactly for a top-level null or an object whose tagged members all fit their fields. Null gives the zero record. Otherwise every field is its member's value, and absent or null members leave the zero value |
| `Confirmation.ToJson` | internal/mdl/confirmation.go:33-40 | `JSON()` marshals an object with exactly the seven tagged keys, each holding its field's value |
| `Confirmation.EncodeDecodeRoundTrip` | internal/mdl/confirmation.go:33-68 | decoding the object `JSON()` marshals for a record gives the same record back |
| `Confirmation.DecodeEncodeDecode` | internal/mdl/confirmation.go:33-68 | re-encoding a decoded record and decoding it again agrees with the first decode |
| `Confirmation.MistypedUserLoginIdFails` | internal/mdl/confirmation.go:61-65 | a `user_login_id` that is neither null nor an int32 integer makes the decode fail, whatever the other members hold |
| `Confirmation.SamplePayloadDecodes` | internal/mdl/confirmation_test.go:16-50 | the success test's payload decodes to a record with exactly the payload's values, and its expiry is `1672531200000 * 1_000_000` nanoseconds |
| `Confirmation.MistypedSamplePayloadFails` | internal/mdl/confirmation_test.go:54-64 | the failure test's payload, with a string `user_login_id`, gives an error and no record |
| `SqsSes.TemplateBase` | cmd/ses/sqs_ses.go:150-157 | the base is `EmailConfirmation` exactly for `NewUser`, and `PasswordResetConfirmation` exactly for every other type string |
| `SqsSes.DetermineTemplate` | cmd/ses/sqs_ses.go:149-167 | the name starts with the type's base. A code of length at most 1 gives the bare base. A longer code gives a name of length base plus code, ending in the upper-cased first character and the lower-cased rest |
| `SqsSes.TemplateHasExactlyOneBase` | cmd/ses/sqs_ses.go:150-157 | every name starts with `EmailConfirmation` exactly when the type is `NewUser`, and with `PasswordResetConfirmation` exactly when it is not |
| `SqsSes.TemplateKeepsWholeLang` | cmd/ses/sqs_ses.go:152-153 | for codes of length 2 or more, the suffix is the whole code up to case |
| `SqsSes.TemplateIgnoresLangCase` | cmd/ses/sqs_ses.go:151-160 | codes that agree up to case select the same template |
| `SqsSes.TemplateTable` | cmd/ses/sqs_ses.go:149-167 | the names for `en`, `es`, `de`, an empty code, a one-letter code, `EN-us` and an unknown type |
| `SqsSes.TemplateData` | cmd/ses/sqs_ses.go:97 | the data starts with `{"url": "` and holds the link unescaped right after it |
| `SqsSes.TemplateDataRoundTrip` | cmd/ses/sqs_ses.go:97 | the link can be read back out of the template data |
| `SqsSes.BuildSendRequest` | cmd/ses/sqs_ses.go:96-119 | one recipient, the record's e-mail; sender `from`; the template `determineTemplate` picks; template data carrying the record's link; one tag, `email_type=confirmation` |
| `SqsSes.EndToEndExample` | cmd/ses/sqs_ses.go:94-119 | a new user with code `en` and id 123 gets `EmailConfirmationEn`, addressed to them, from `from`, carrying `<base>/confirm/newuser/123/<token>` |
| `SqsSes.SendEmail` | cmd/ses/sqs_ses.go:94-130 | submits exactly the assembled request. It returns no error when SES accepts and a send error naming the template when SES rejects |
| `SqsSes.Attempt` | cmd/ses/sqs_ses.go:48-63 | what happens to one record. Decoding fails exactly when the decoder rejects the body. A secret failure means the lookup failed. A submitted request means decoding and the lookup both succeeded, and the request is the one built from that record and that sender. The record counts as sent exactly when SES accepted that request |
| `SqsSes.Steps` | cmd/ses/sqs_ses.go:45-63 | one step per body, and step k is the attempt on body k: decode, then sender lookup k, then send k |
| `SqsSes.RunSteps` | cmd/ses/sqs_ses.go:45-64 | the fail-fast run from step i: it logs at most one request per remaining step, and exactly one per remaining step when it ends without error |
| `SqsSes.HandleBatch` | cmd/ses/sqs_ses.go:36-65 | the handler's specification: at most one request per body, and no error only if the configuration loaded and one request was issued per body |
| `SqsSes.FirstFailure` | cmd/ses/sqs_ses.go:45-64 | the index of the first step that is not a completed send: all earlier steps were sent |
| `SqsSes.HandleRecord` | cmd/ses/sqs_ses.go:48-63 | one loop iteration returns exactly the error of record k's step, and submits that step's request, if any |
| `SqsSes.RunStepsAdvance` | cmd/ses/sqs_ses.go:45-64 | one step of the fail-fast run: a sent step appends its request and moves on, and any other step ends the run with its error |
| `SqsSes.HandleRecords` | cmd/ses/sqs_ses.go:45-65 | the loop returns the error and issues the send log that `RunSteps` prescribes for the batch's steps |
| `SqsSes.HandleRequest` | cmd/ses/sqs_ses.go:36-66 | the handler's error and send log are `HandleBatch`'s |
| `SqsSes.RunStepsFacts` | cmd/ses/sqs_ses.go:45-65 | there is no error exactly when no step fails. Otherwise the error is the first failure's. The log holds the requests of the steps up to it, in order, plus its own if it failed at the send |
| `SqsSes.RunStepsIgnoresLater` | cmd/ses/sqs_ses.go:45-64 | steps after the first failure do not change the outcome |
| `SqsSes.HandleConfigFailure` | cmd/ses/sqs_ses.go:38-41 | a failed configuration load is reported and no record is processed |
| `SqsSes.HandleSucceedsIff` | cmd/ses/sqs_ses.go:45-65 | the handler returns no error exactly when the configuration loads and every record is sent |
| `SqsSes.RunStepsSuccess` | cmd/ses/sqs_ses.go:45-65 | a run without error sent every step, and its log lists their requests in step order |
| `SqsSes.HandleSuccessLog` | cmd/ses/sqs_ses.go:45-65 | on success every body decoded and got a sender, and the log holds one request per record, in record order, each built from that record and its sender |
| `SqsSes.RunStepsFailsFast` | cmd/ses/sqs_ses.go:45-64 | at the first failing step: every earlier step was sent, the error is that step's, and the log is the earlier requests plus its own if the send failed |
| `SqsSes.HandleFailsFast` | cmd/ses/sqs_ses.go:45-64 | the same for a batch whose configuration loads |
| `SqsSes.HandleIgnoresRecordsAfterFailure` | cmd/ses/sqs_ses.go:45-64 | once a record fails, appending more bodies changes neither the error nor the log |
| `SqsSes.FirstBodyMalformed` | cmd/ses/sqs_ses.go:48-51 | a malformed first body gives a deserialize error, and nothing is sent, whatever follows |

## Left out

- Text-level JSON parsing is left out: `encoding/json` is a foreign library. Whether a body parses, and to which value, comes from `Env.parse`. What the binding into the struct decides is modelled.
- `UserConfirmationFromJson`: the model matches JSON keys exactly. `encoding/json` also accepts keys that differ from the tag only in case; that matching rule is not modelled.
- `UserConfirmationFromJson`: JSON numbers with a fraction or an exponent, booleans, arrays and objects are all type errors for every field. The exact `UnmarshalTypeError` message is not modelled, only its kind.
- `JSON()` is modelled as the marshalled value (`ToJson`), not as text. Its marshal-error branch (`internal/mdl/confirmation.go:35-38`) cannot be taken for this struct and is left out.
- `ExpiresAt` returns integer nanoseconds since the epoch, not a `time.Time`.
- `ConfirmUrL` and `ExpiresAt` are functions of a record value, so the record is unchanged by construction. There is no separate statement of that.
- Case mapping is ASCII only. Unicode case mapping and multi-byte runes are out of scope, and `len(lang)` and `lang[:1]` count characters here.
- These are abstract `Env` collaborators with a success or failure answer:
  - `config.LoadDefaultConfig`;
  - `settings.GetNoReplySecret` (`internal/settings/config.go` is not part of this model);
  - `sesSvc.SendEmail`.
- `sesv2.NewFromConfig` cannot fail and is not modelled; the SES client it returns appears only through `Env.sesSend`.
- The wrapped error messages built with `fmt.Errorf` are modelled as `HandlerError` cases carrying the cause. The message text is not modelled.
- `fmt.Printf` logging, `context` cancellation and deadlines, and `main` / `lambda.Start` are left out.
- `SqsSes.HandleRequest`: the ghost send log lists requests as they are handed to SES, including a rejected one. Whether SES delivered a message is beyond the model.
