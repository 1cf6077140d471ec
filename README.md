# Byeori waitlist signup, modelled in Dafny

The Byeori landing page collects early-access signups through a single
Cloudflare Pages function, `functions/api/waitlist-signup.ts`.

- **`POST`** reads a JSON body and rejects an email that is missing, not a
  string or without an `'@'` (400). It then checks the three configuration
  values of the Resend mailing provider, and normalises the email
  (trimmed, lower-cased) and up to nine attribution fields (trimmed,
  truncated). After that it makes two upstream calls:
  - it adds the contact to the configured audience (a 409 means "already
    on the waitlist" and counts as success);
  - it sends a welcome email.

  The outcome maps onto one of four responses: 200 with
  `{success, alreadyOnWaitlist}`, 400, 502 when only the welcome email
  failed, and the generic 500 for everything thrown.
- **`OPTIONS`** answers the cross-origin pre-flight.

The model is made of four modules:

- `JsStrings` models JavaScript strings as sequences of UTF-16 code units,
  with `trim` (the ECMAScript whitespace and line-terminator set),
  `toLowerCase` and `slice(0, n)`. It proves that `trim` is determined by
  what it removes, and that trimming and lower-casing commute and are
  idempotent.
- `JsonValues` holds the values `JSON.parse` produces, JavaScript
  truthiness and property reads. `JSON.parse` itself is a parameter
  (`None` when it throws).
- `WaitlistSignup` is the handler:
  - `sanitizeText`, `parseResendResponse`, the email rule, the
    configuration check and the fixed texts;
  - `Admit`, the checks made before any upstream call;
  - `Signup`, the two calls and the mapping of their outcomes;
  - `Post` (`onRequestPost`) and `Options` (`onRequestOptions`).

  The upstream calls are not performed. What each one returned is an input
  (`Reply`: a status and a body text, or `Rejected` when the `fetch` or the
  reading of its body rejects). `Post` returns the response together with
  the log of calls the handler makes, the informational signup record and
  what goes to the error log.
- `WaitlistSignupProperties` states what the endpoint promises its callers:
  - the status table in both directions;
  - the number and order of the upstream calls;
  - that no upstream text reaches the client;
  - how the welcome email is addressed;
  - that every response carries the cross-origin headers.

## Model

| member | source | states |
|---|---|---|
| JsStrings.SkipWhiteSpace | functions/api/waitlist-signup.ts:48 | the index where `trim` starts: every code unit before it is whitespace, the one at it is not |
| JsStrings.DropWhiteSpace | functions/api/waitlist-signup.ts:48 | the index where `trim` ends: every code unit from it on is whitespace, the one before it is not |
| JsStrings.Trim | functions/api/waitlist-signup.ts:48 | `trim` returns a string that is empty or starts and ends with a non-whitespace unit, and it is empty exactly when the input is all whitespace |
| JsStrings.TrimUnique | functions/api/waitlist-signup.ts:48 | whatever sits between a whitespace prefix and a whitespace suffix, and has no whitespace at either end, is exactly what `trim` returns |
| JsStrings.TrimIdempotent | functions/api/waitlist-signup.ts:121 | trimming a trimmed string changes nothing |
| JsStrings.SkipSameWhiteSpace | functions/api/waitlist-signup.ts:127 | two strings with whitespace at the same positions have the same trim start |
| JsStrings.DropSameWhiteSpace | functions/api/waitlist-signup.ts:127 | two strings with whitespace at the same positions have the same trim end |
| JsStrings.ToLowerTrimCommute | functions/api/waitlist-signup.ts:127 | `s.trim().toLowerCase()` equals `s.toLowerCase().trim()` |
| JsStrings.TrimKeepsAt | functions/api/waitlist-signup.ts:112-127 | trimming neither adds nor removes an `'@'` |
| JsStrings.ToLowerKeepsAt | functions/api/waitlist-signup.ts:112-127 | lower-casing neither adds nor removes an `'@'` |
| JsStrings.LowerUnit | functions/api/waitlist-signup.ts:127 | a lower-cased code unit is never an upper-case ASCII letter, and it is whitespace or `'@'` exactly when the original was |
| JsStrings.ToLower | functions/api/waitlist-signup.ts:127 | `toLowerCase` keeps the length and the whitespace positions and leaves no upper-case ASCII letter |
| JsStrings.SlicePrefix | functions/api/waitlist-signup.ts:50 | `slice(0, n)` returns a prefix of the string, of length `n` or the whole string when it is shorter |
| WaitlistSignup.IsValidEmail | functions/api/waitlist-signup.ts:112 | the email rule: a value is accepted exactly when it is a string containing `'@'` (the `!email` test adds nothing) |
| WaitlistSignup.Readable | functions/api/waitlist-signup.ts:109-110 | the body can be read and destructured: `JSON.parse` accepts it and it is not `null` |
| WaitlistSignup.MessageText | functions/api/waitlist-signup.ts:114-199 | the texts of the three client messages, which have different lengths and so are different texts |
| WaitlistSignup.NormalizeEmail | functions/api/waitlist-signup.ts:127 | the normalised email keeps its `'@'`, equals `trim(lower(email))`, is fixed by both `trim` and `toLowerCase`, and has no upper-case ASCII letter |
| WaitlistSignup.SanitizeText | functions/api/waitlist-signup.ts:46-51 | absent exactly when the value is not a string or trims to empty; otherwise a prefix of the trimmed string of at most `maxLength` units, the whole trimmed string when it is shorter than the limit, and non-empty and not starting with whitespace when the limit is positive |
| WaitlistSignup.AttributionOf | functions/api/waitlist-signup.ts:129-139 | every attribution field is absent or a non-empty string within its limit (120, or 240 for `path`, or 400 for `referrer`) |
| WaitlistSignup.AttributionFields | functions/api/waitlist-signup.ts:129-139 | each of the nine fields is the body's value under its own name sanitised with its own limit (120, 240 for `path`, 400 for `referrer`), so it is recorded exactly when the body carries a non-blank string under that name |
| WaitlistSignup.ReadConfig | functions/api/waitlist-signup.ts:119-125 | the configuration passes exactly when the API key and audience id are non-empty as they are and the sender is not all whitespace; only the sender is trimmed, and it is then non-empty and trim-fixed |
| WaitlistSignup.ParseResendResponse | functions/api/waitlist-signup.ts:53-62 | total over all body texts: absent exactly for the empty text, the parsed value when `JSON.parse` accepts the text, `{message: text}` when it throws |
| WaitlistSignup.MessageObject | functions/api/waitlist-signup.ts:60 | the object built from unparseable text has exactly one member, `message`, holding the text |
| WaitlistSignup.ReasonFor | functions/api/waitlist-signup.ts:165 | the reported reason is the body's truthy `message`, or the fallback when there is no body, no `message` or a falsy one |
| WaitlistSignup.Url | functions/api/waitlist-signup.ts:150-168 | the contact URL holds the audience id between the fixed `https://api.resend.com/audiences/` prefix and the `/contacts` suffix; the email URL is the fixed 29-unit `https://api.resend.com/emails` |
| WaitlistSignup.ServerError | functions/api/waitlist-signup.ts:196-201 | the catch block: the generic 500 with the JSON and cross-origin headers, keeping the calls made and the record, with the error logged |
| WaitlistSignup.Admit | functions/api/waitlist-signup.ts:109-139 | the checks run in order: unreadable body, then invalid email, then incomplete configuration, each exactly under its condition; a request that passes goes on with its configuration, its normalised email and its sanitised record |
| WaitlistSignup.Signup | functions/api/waitlist-signup.ts:149-195 | past validation the status is 200, 500 or 502; the contact call comes first and the email call, when made, second, with the configured key, audience id and sender; 200 exactly for a successful body, and then both calls were made |
| WaitlistSignup.Post | functions/api/waitlist-signup.ts:107-203 | every response is JSON with the cross-origin headers and a status in {200, 400, 500, 502}; at most two calls, audience first and email second, and only with a signup record; 200 exactly for `{success: true, ...}`, and then both calls were made |
| WaitlistSignup.Options | functions/api/waitlist-signup.ts:103-105 | the pre-flight has no body, exactly the cross-origin headers and a successful status |
| WaitlistSignupProperties.UnreadableBodyIsServerError | functions/api/waitlist-signup.ts:109-110 | a body that is not JSON, or is `null`, gives the generic 500 with no call and no record |
| WaitlistSignupProperties.InvalidEmailIsRejected | functions/api/waitlist-signup.ts:112-117 | 400 exactly for a readable body with an invalid email; the message is fixed, and no call, record or error log follows |
| WaitlistSignupProperties.IncompleteConfigIsServerError | functions/api/waitlist-signup.ts:119-125 | with a valid email and an empty key, an empty audience id or a blank sender, the response is the generic 500 and no call is made |
| WaitlistSignupProperties.BlankSenderIsIncomplete | src/test/waitlist-signup.test.ts:124-135 | a sender of three spaces fails the configuration check |
| WaitlistSignupProperties.BlankKeyIsAccepted | functions/api/waitlist-signup.ts:119-123 | an API key and audience id of one space pass the check, because only the sender is trimmed |
| WaitlistSignupProperties.TrimmedSenderIsKept | src/test/waitlist-signup.test.ts:55-57 | a sender with no surrounding whitespace is sent exactly as configured |
| WaitlistSignupProperties.AudienceFailureStopsSignup | functions/api/waitlist-signup.ts:161-166 | an audience status that is neither 2xx nor 409 gives the generic 500 after exactly one call, whatever the body text; the reason goes to the error log only |
| WaitlistSignupProperties.AdmittedProceeds | functions/api/waitlist-signup.ts:107-149 | an admitted request is handed to the upstream part with its configuration, email and record |
| WaitlistSignupProperties.UpstreamRejectionIsServerError | functions/api/waitlist-signup.ts:149-182 | a rejected `fetch` or body read gives the generic 500, also for the welcome email; the calls made so far stay in the log |
| WaitlistSignupProperties.WelcomeFailureIsBadGateway | functions/api/waitlist-signup.ts:182-190 | a registered contact and a refused welcome email give 502 with its fixed message after two calls; the provider's reason is only logged |
| WaitlistSignupProperties.SignupSucceeds | functions/api/waitlist-signup.ts:162-195 | both calls succeeding give 200 `{success: true, alreadyOnWaitlist: status == 409}` and exactly the contact call followed by the email call |
| WaitlistSignupProperties.StatusTable | functions/api/waitlist-signup.ts:107-203 | the conditions for each of 200, 502, 400 and 500, in both directions |
| WaitlistSignupProperties.CallLog | functions/api/waitlist-signup.ts:149-180 | calls are made exactly for admitted requests; the email call is made exactly when the contact was registered; at most two calls, the contact first |
| WaitlistSignupProperties.SignupStatus | functions/api/waitlist-signup.ts:161-195 | past validation, the status follows from the two upstream outcomes alone, in both directions |
| WaitlistSignupProperties.SignupCallCount | functions/api/waitlist-signup.ts:164-168 | past validation, the welcome email is attempted exactly when the contact was registered |
| WaitlistSignupProperties.WelcomeEmailAddressing | functions/api/waitlist-signup.ts:121-176 | both calls carry the request's email trimmed and lower-cased (in either order); the email goes from the trimmed sender with the configured key and audience id |
| WaitlistSignupProperties.RegisteredSignupCalls | functions/api/waitlist-signup.ts:149-180 | once the contact is registered, the call log is exactly the contact call and then the email call |
| WaitlistSignupProperties.ResponseIgnoresUpstreamText | functions/api/waitlist-signup.ts:161-201 | two runs whose upstream replies differ only in their body texts give the same response, calls and record |
| WaitlistSignupProperties.SignupIgnoresUpstreamText | functions/api/waitlist-signup.ts:161-195 | the same, past validation |
| WaitlistSignupProperties.UpstreamReason | functions/api/waitlist-signup.ts:53-62 | an empty body leaves the fallback reason, text that is not JSON becomes the reason as it is, and parsed JSON supplies its truthy `message` |
| WaitlistSignupProperties.SignupRecordIsSanitised | functions/api/waitlist-signup.ts:127-147 | the signup record exists exactly for admitted requests; it holds the normalised email, which contains `'@'`, and well-formed attribution fields |
| WaitlistSignupProperties.ResubmissionSendsAgain | functions/api/waitlist-signup.ts:162-195 | a second signup answered with 409 makes the same two calls again (a second welcome email) and differs only in `alreadyOnWaitlist` |
| WaitlistSignupProperties.EveryResponseAllowsCrossOrigin | functions/api/waitlist-signup.ts:40-44 | every `POST` response and the pre-flight carry the three cross-origin headers |
| WaitlistSignupProperties.ContactUrlNamesAudience | functions/api/waitlist-signup.ts:150 | the text of the contact URL determines the audience id: different audience ids give different URL texts (how `fetch` resolves the text, e.g. dot segments, is not modelled) |

## Left out

- The upstream `fetch` calls, the `Request` and `Response` objects and the platform types are not modelled. Each upstream outcome is an input, and the calls are returned as a log.
- The `method` and `Content-Type` header of each upstream request are left out. They are the same fixed values on every call.
- `JSON.parse` and `JSON.stringify` are not modelled. Parsing is a parameter that may fail. Response bodies and upstream request bodies are datatypes, not serialised text.
- `console.info` and `console.error` are modelled only as the record and diagnostic `Post` returns. The timestamp, user agent and country of the record are left out (clock and request headers).
- The fixed texts are symbols, each with a function giving its text: response messages, header fields, URLs, the email subject. The two fallback reasons of the error log are named in comments only.
- The HTML template of the welcome email is an opaque constant.
- `toLowerCase` is modelled for ASCII letters only. Its effect on other letters is not modelled.
- Numbers in JSON values are `real`; only their truthiness matters to the handler.
- `Options`: returns the default status 200 of `new Response(null, ...)`. This follows the code, not a 204.
- A request body of JSON `null` makes the destructuring at functions/api/waitlist-signup.ts:110 throw, so it gives the generic 500. This follows the code.
- Whether a repeated signup is harmless upstream is a property of the provider, not of this handler; the model only shows that the handler repeats both calls.
