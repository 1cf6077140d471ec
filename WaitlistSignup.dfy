/**
 * The waitlist signup endpoint: `POST` validates the email in the request
 * body, registers it as a contact in the configured audience of the mailing
 * provider, sends the welcome email through the same provider and maps the
 * outcome onto one of four responses; `OPTIONS` answers the cross-origin
 * pre-flight.
 *
 * The two upstream calls are not performed here: what each one returned is
 * an input (`Reply`), and the calls the handler would make are returned as a
 * log, in order. `JSON.parse` is an input too (`Parser`).
 */
module WaitlistSignup {
  import opened Wrappers
  import opened JsStrings
  import opened JsonValues

  // ---------------------------------------------------------------------
  // Responses

  /** The header fields the handler sets; `HeaderName` and `HeaderValue` give their text. */
  datatype Header = ContentTypeJson | AllowOrigin | AllowHeaders | AllowMethods

  function HeaderName(h: Header): JsString
  {
    match h
    case ContentTypeJson => Lit("Content-Type")
    case AllowOrigin => Lit("Access-Control-Allow-Origin")
    case AllowHeaders => Lit("Access-Control-Allow-Headers")
    case AllowMethods => Lit("Access-Control-Allow-Methods")
  }

  function HeaderValue(h: Header): JsString
  {
    match h
    case ContentTypeJson => Lit("application/json")
    case AllowOrigin => Lit("*")
    case AllowHeaders => Lit("content-type")
    case AllowMethods => Lit("POST, OPTIONS")
  }

  /** The cross-origin headers every response carries. */
  const CorsHeaders: seq<Header> := [AllowOrigin, AllowHeaders, AllowMethods]

  /** The headers of every `POST` response: the JSON content type, then the cross-origin set. */
  const JsonHeaders: seq<Header> := [ContentTypeJson] + CorsHeaders

  /** The fixed messages a client can be shown; `MessageText` gives their text. */
  datatype Message = InvalidEmailMessage | GenericMessage | WelcomeEmailMessage

  function MessageText(m: Message): (text: JsString)
    ensures |text| == match m
                      case InvalidEmailMessage => 35
                      case GenericMessage => 39
                      case WelcomeEmailMessage => 47
  {
    match m
    case InvalidEmailMessage => Lit("Please enter a valid email address.")
    case GenericMessage => Lit("Something went wrong. Please try again.")
    case WelcomeEmailMessage => Lit("Unable to send welcome email. Please try again.")
  }

  /** The JSON object a response serialises (`NoBody` is the `null` body of `OPTIONS`). */
  datatype Body =
    | NoBody
    | ErrorBody(error: Message)
    | SuccessBody(success: bool, alreadyOnWaitlist: bool)

  datatype Response = Response(status: int, headers: seq<Header>, body: Body)

  // ---------------------------------------------------------------------
  // Configuration and the upstream provider

  /** The three configuration values; `None` is a value the environment does not define. */
  datatype Env = Env(apiKey: Option<JsString>, audienceId: Option<JsString>, fromEmail: Option<JsString>)

  /** A configuration that passed the check: the sender address is the trimmed one. */
  datatype Config = Config(apiKey: JsString, audienceId: JsString, fromEmail: JsString)

  /**
   * What an upstream call gave back: its status and its body text, or
   * `Rejected` when the `fetch` or the reading of the body rejected.
   */
  datatype Reply = Reply(status: int, text: JsString) | Rejected

  /** The status the provider uses for a contact that is already in the audience. */
  const Conflict: int := 409

  /** `Response.ok`. */
  predicate IsOk(status: int)
  {
    200 <= status <= 299
  }

  /** The welcome email: a fixed subject and a fixed HTML template, the latter kept opaque. */
  datatype EmailMessage = Welcome

  function Subject(m: EmailMessage): JsString
  {
    match m
    case Welcome => Lit("Thanks for joining the Byeori waitlist")
  }

  /** An upstream `POST` the handler makes, with what it sends; `Url` and `Authorization` give its target and credential. */
  datatype Call =
    | AudienceCall(audienceId: JsString, apiKey: JsString, email: JsString)
    | EmailCall(apiKey: JsString, from: JsString, to: seq<JsString>, message: EmailMessage)

  function Url(call: Call): (url: JsString)
    ensures call.AudienceCall? ==> |url| == 33 + |call.audienceId| + 9 && url[33..|url| - 9] == call.audienceId
    ensures call.EmailCall? ==> |url| == 29
  {
    match call
    case AudienceCall(audienceId, _, _) =>
      Lit("https://api.resend.com/audiences/") + audienceId + Lit("/contacts")
    case EmailCall(_, _, _, _) => Lit("https://api.resend.com/emails")
  }

  function Authorization(call: Call): JsString
  {
    Lit("Bearer ") + call.apiKey
  }

  // ---------------------------------------------------------------------
  // Attribution fields

  const ShortLimit: nat := 120
  const PathLimit: nat := 240
  const ReferrerLimit: nat := 400

  datatype Attribution = Attribution(
    source: Option<JsString>,
    persona: Option<JsString>,
    path: Option<JsString>,
    referrer: Option<JsString>,
    utmSource: Option<JsString>,
    utmMedium: Option<JsString>,
    utmCampaign: Option<JsString>,
    utmTerm: Option<JsString>,
    utmContent: Option<JsString>)

  /** The informational record logged for an accepted request (its timestamp and request headers left out). */
  datatype SignupRecord = SignupRecord(email: JsString, attribution: Attribution)

  /**
   * Why an upstream call failed, as the handler reports it: the provider's
   * truthy `message`, or the handler's own fixed fallback text.
   */
  datatype Reason = ProviderMessage(message: Json) | Fallback

  /** What the handler reports on its error log. */
  datatype Diagnostic =
    | UnreadableBody                    // the body was not JSON, or was `null` and could not be destructured
    | MissingConfiguration              // the error thrown for an incomplete configuration
    | AudienceFailed(reason: Reason)    // the error thrown when the contact was not registered;
                                        // its fallback text is "Failed to add to audience"
    | UpstreamRejected                  // a `fetch`, or the reading of its body, rejected
    | WelcomeEmailFailed(reason: Reason) // the error logged before the 502 response;
                                         // its fallback text is "Unknown Resend error"

  /** Everything one `POST` produces. */
  datatype PostResult = PostResult(
    response: Response,
    calls: seq<Call>,
    record: Option<SignupRecord>,
    diagnostic: Option<Diagnostic>)

  // ---------------------------------------------------------------------
  // Input validation and normalisation

  /**
   * `!email || typeof email !== "string" || !email.includes("@")`, negated.
   * The `!email` test adds nothing: a valid email is exactly a string with an `'@'`.
   */
  predicate IsValidEmail(email: Option<Json>)
    ensures IsValidEmail(email) <==> AsString(email).Some? && At in AsString(email).value
  {
    email.Some? && Truthy(email.value) && email.value.JString? && At in email.value.s
  }

  /** `email.trim().toLowerCase()`. */
  function NormalizeEmail(email: JsString): (r: JsString)
    ensures At in r <==> At in email
    ensures r == Trim(ToLower(email))
    ensures Trim(r) == r && ToLower(r) == r
    ensures forall k :: 0 <= k < |r| ==> !IsUpperAscii(r[k])
  {
    ToLowerTrimCommute(email);
    TrimKeepsAt(email);
    ToLowerKeepsAt(Trim(email));
    TrimIdempotent(ToLower(email));
    ToLowerIdempotent(Trim(email));
    ToLower(Trim(email))
  }

  /** Not a string, or a string that `trim` empties. */
  predicate Blank(value: Option<Json>)
  {
    AsString(value).None? || AllWhiteSpace(AsString(value).value)
  }

  /**
   * `sanitizeText`: a string value, trimmed and cut to at most `maxLength`
   * code units; absent when the value is not a string or is only whitespace.
   */
  function SanitizeText(value: Option<Json>, maxLength: nat): (r: Option<JsString>)
    ensures r.None? <==> Blank(value)
    ensures r.Some? ==> r.value <= Trim(AsString(value).value)
    ensures r.Some? ==> |r.value| <= maxLength
    ensures r.Some? && |r.value| < maxLength ==> r.value == Trim(AsString(value).value)
    ensures r.Some? && maxLength > 0 ==> r.value != [] && !IsWhiteSpace(r.value[0])
  {
    match AsString(value)
    case None => None
    case Some(raw) =>
      var cleaned := Trim(raw);
      if cleaned == [] then None else Some(SlicePrefix(cleaned, maxLength))
  }

  /** Absent, or a non-empty string of at most `limit` code units. */
  predicate Fits(field: Option<JsString>, limit: nat)
  {
    field.None? || 0 < |field.value| <= limit
  }

  predicate WellFormed(a: Attribution)
  {
    && Fits(a.source, ShortLimit) && Fits(a.persona, ShortLimit)
    && Fits(a.path, PathLimit) && Fits(a.referrer, ReferrerLimit)
    && Fits(a.utmSource, ShortLimit) && Fits(a.utmMedium, ShortLimit)
    && Fits(a.utmCampaign, ShortLimit) && Fits(a.utmTerm, ShortLimit)
    && Fits(a.utmContent, ShortLimit)
  }

  /** The sanitised attribution fields of a request body. */
  function AttributionOf(body: Json): (a: Attribution)
    ensures WellFormed(a)
  {
    Attribution(
      SanitizeText(Get(body, Lit("source")), ShortLimit),
      SanitizeText(Get(body, Lit("persona")), ShortLimit),
      SanitizeText(Get(body, Lit("path")), PathLimit),
      SanitizeText(Get(body, Lit("referrer")), ReferrerLimit),
      SanitizeText(Get(body, Lit("utm_source")), ShortLimit),
      SanitizeText(Get(body, Lit("utm_medium")), ShortLimit),
      SanitizeText(Get(body, Lit("utm_campaign")), ShortLimit),
      SanitizeText(Get(body, Lit("utm_term")), ShortLimit),
      SanitizeText(Get(body, Lit("utm_content")), ShortLimit))
  }

  /**
   * Each attribution field is the body's value under its own name, sanitised
   * with its own limit: 240 for `path`, 400 for `referrer`, 120 for the
   * others. So it is recorded exactly when that value is a string that is
   * not blank.
   */
  lemma AttributionFields(body: Json)
    ensures var a := AttributionOf(body);
            && ShortLimit == 120 && PathLimit == 240 && ReferrerLimit == 400
            && a.source == SanitizeText(Get(body, Lit("source")), ShortLimit)
            && a.persona == SanitizeText(Get(body, Lit("persona")), ShortLimit)
            && a.path == SanitizeText(Get(body, Lit("path")), PathLimit)
            && a.referrer == SanitizeText(Get(body, Lit("referrer")), ReferrerLimit)
            && a.utmSource == SanitizeText(Get(body, Lit("utm_source")), ShortLimit)
            && a.utmMedium == SanitizeText(Get(body, Lit("utm_medium")), ShortLimit)
            && a.utmCampaign == SanitizeText(Get(body, Lit("utm_campaign")), ShortLimit)
            && a.utmTerm == SanitizeText(Get(body, Lit("utm_term")), ShortLimit)
            && a.utmContent == SanitizeText(Get(body, Lit("utm_content")), ShortLimit)
    ensures var a := AttributionOf(body);
            && (a.source.None? <==> Blank(Get(body, Lit("source"))))
            && (a.persona.None? <==> Blank(Get(body, Lit("persona"))))
            && (a.path.None? <==> Blank(Get(body, Lit("path"))))
            && (a.referrer.None? <==> Blank(Get(body, Lit("referrer"))))
            && (a.utmSource.None? <==> Blank(Get(body, Lit("utm_source"))))
            && (a.utmMedium.None? <==> Blank(Get(body, Lit("utm_medium"))))
            && (a.utmCampaign.None? <==> Blank(Get(body, Lit("utm_campaign"))))
            && (a.utmTerm.None? <==> Blank(Get(body, Lit("utm_term"))))
            && (a.utmContent.None? <==> Blank(Get(body, Lit("utm_content"))))
  {
  }

  /** A configuration value that JavaScript treats as truthy: defined and non-empty. */
  predicate Present(value: Option<JsString>)
  {
    value.Some? && value.value != []
  }

  /**
   * The configuration check: the API key and the audience id must be
   * non-empty as they are; only the sender address is trimmed first.
   */
  function ReadConfig(env: Env): (c: Option<Config>)
    ensures c.Some? <==> Present(env.apiKey) && Present(env.audienceId)
                         && env.fromEmail.Some? && !AllWhiteSpace(env.fromEmail.value)
    ensures c.Some? ==> c.value.apiKey == env.apiKey.value && c.value.audienceId == env.audienceId.value
    ensures c.Some? ==> c.value.fromEmail == Trim(env.fromEmail.value)
    ensures c.Some? ==> c.value.fromEmail != [] && Trim(c.value.fromEmail) == c.value.fromEmail
  {
    var fromEmail := if env.fromEmail.Some? then Some(Trim(env.fromEmail.value)) else None;
    if Present(env.apiKey) && Present(env.audienceId) && Present(fromEmail) then
      TrimIdempotent(env.fromEmail.value);
      Some(Config(env.apiKey.value, env.audienceId.value, fromEmail.value))
    else
      None
  }

  // ---------------------------------------------------------------------
  // Reading an upstream body

  /** `{message: text}`: an object whose only member is `message`, holding the text. */
  function MessageObject(text: JsString): (v: Json)
    ensures Get(v, Lit("message")) == Some(JString(text))
    ensures v.JObject? && |v.members| == 1
  {
    JObject(map[Lit("message") := JString(text)])
  }

  /**
   * `parseResendResponse`: never fails. An empty body gives `undefined`, a
   * body `JSON.parse` accepts gives the parsed value, any other text `t`
   * gives `{message: t}`.
   */
  function ParseResendResponse(text: JsString, parse: Parser): (r: Option<Json>)
    ensures r.None? <==> text == []
    ensures text != [] && parse(text).Some? ==> r == parse(text)
    ensures text != [] && parse(text).None? ==> r == Some(MessageObject(text))
  {
    if text == [] then None
    else match parse(text) {
      case Some(v) => Some(v)
      case None => Some(MessageObject(text))
    }
  }

  /** `data?.message || fallback`. */
  function ReasonFor(data: Option<Json>): (r: Reason)
    ensures r.ProviderMessage? ==> Truthy(r.message) && data.Some? && Get(data.value, Lit("message")) == Some(r.message)
    ensures r.Fallback? ==> data.None? || Get(data.value, Lit("message")).None?
                            || !Truthy(Get(data.value, Lit("message")).value)
  {
    var message := if data.Some? then Get(data.value, Lit("message")) else None;
    if message.Some? && Truthy(message.value) then ProviderMessage(message.value) else Fallback
  }

  // ---------------------------------------------------------------------
  // The handlers

  function Respond(status: int, body: Body): Response
  {
    Response(status, JsonHeaders, body)
  }

  /** The catch-all: whatever was thrown becomes the generic 500. */
  function ServerError(diagnostic: Diagnostic, calls: seq<Call>, record: Option<SignupRecord>): (r: PostResult)
    ensures r.response.status == 500 && r.response.body == ErrorBody(GenericMessage)
    ensures r.response.headers == [ContentTypeJson] + CorsHeaders
    ensures r.calls == calls && r.record == record && r.diagnostic == Some(diagnostic)
  {
    PostResult(Respond(500, ErrorBody(GenericMessage)), calls, record, Some(diagnostic))
  }

  /** The request body parsed as JSON and is not `null`, so it can be destructured. */
  predicate Readable(requestText: JsString, parse: Parser)
  {
    parse(requestText).Some? && !parse(requestText).value.JNull?
  }

  /** The request body's `email` field passes the validity rule. */
  predicate EmailAccepted(requestText: JsString, parse: Parser)
  {
    Readable(requestText, parse) && IsValidEmail(Get(parse(requestText).value, Lit("email")))
  }

  /** The `email` field of a request whose email was accepted, as it was sent. */
  function RequestEmail(requestText: JsString, parse: Parser): JsString
    requires EmailAccepted(requestText, parse)
  {
    Get(parse(requestText).value, Lit("email")).value.s
  }

  /** How far `onRequestPost` gets before it calls the provider. */
  datatype Admission =
    | Unreadable    // `JSON.parse` threw, or the body is `null` and cannot be destructured
    | InvalidEmail
    | Unconfigured
    | Proceed(config: Config, email: JsString, record: SignupRecord)

  /**
   * The checks of `onRequestPost`, in order: the body is read, the email
   * validated, the configuration checked; a request that passes all three
   * goes on with the normalised email and its signup record.
   */
  function Admit(requestText: JsString, env: Env, parse: Parser): (a: Admission)
    ensures a.Unreadable? <==> !Readable(requestText, parse)
    ensures a.InvalidEmail? <==> Readable(requestText, parse) && !EmailAccepted(requestText, parse)
    ensures a.Unconfigured? <==> EmailAccepted(requestText, parse) && ReadConfig(env).None?
    ensures a.Proceed? <==> EmailAccepted(requestText, parse) && ReadConfig(env).Some?
    ensures a.Proceed? ==>
              && a.config == ReadConfig(env).value
              && a.email == NormalizeEmail(RequestEmail(requestText, parse))
              && a.record == SignupRecord(a.email, AttributionOf(parse(requestText).value))
  {
    match parse(requestText)
    case None => Unreadable
    case Some(body) =>
      if body.JNull? then Unreadable
      else
        var email := Get(body, Lit("email"));
        if !IsValidEmail(email) then InvalidEmail
        else match ReadConfig(env) {
          case None => Unconfigured
          case Some(config) =>
            var normalized := NormalizeEmail(email.value.s);
            Proceed(config, normalized, SignupRecord(normalized, AttributionOf(body)))
        }
  }

  /**
   * The part of `onRequestPost` after validation: register the contact,
   * then, unless that failed, send the welcome email, and map the two
   * outcomes onto the response.
   */
  function Signup(config: Config, email: JsString, record: SignupRecord, audience: Reply, welcome: Reply,
                  parse: Parser): (r: PostResult)
    ensures r.response.headers == JsonHeaders
    ensures r.response.status in {200, 500, 502}
    ensures 1 <= |r.calls| <= 2 && r.calls[0] == AudienceCall(config.audienceId, config.apiKey, email)
    ensures |r.calls| == 2 ==> r.calls[1] == EmailCall(config.apiKey, config.fromEmail, [email], Welcome)
    ensures r.record == Some(record)
    ensures r.response.status == 200 <==> r.response.body.SuccessBody?
    ensures r.response.body.SuccessBody? ==> r.response.body.success && |r.calls| == 2
  {
    var contact := AudienceCall(config.audienceId, config.apiKey, email);
    match audience {
      case Rejected => ServerError(UpstreamRejected, [contact], Some(record))
      case Reply(status, text) =>
        var audienceData := ParseResendResponse(text, parse);
        var alreadyOnWaitlist := status == Conflict;
        if !IsOk(status) && !alreadyOnWaitlist then
          ServerError(AudienceFailed(ReasonFor(audienceData)),
                      [contact], Some(record))
        else
          var send := EmailCall(config.apiKey, config.fromEmail, [email], Welcome);
          match welcome {
            case Rejected => ServerError(UpstreamRejected, [contact, send], Some(record))
            case Reply(sendStatus, sendText) =>
              var emailData := ParseResendResponse(sendText, parse);
              if !IsOk(sendStatus) then
                PostResult(Respond(502, ErrorBody(WelcomeEmailMessage)), [contact, send], Some(record),
                           Some(WelcomeEmailFailed(ReasonFor(emailData))))
              else
                PostResult(Respond(200, SuccessBody(true, alreadyOnWaitlist)), [contact, send], Some(record), None)
          }
    }
  }

  /**
   * `onRequestPost`, given the request's body text, the environment, what the
   * audience call and the email call would give back, and `JSON.parse`.
   */
  function Post(requestText: JsString, env: Env, audience: Reply, welcome: Reply, parse: Parser): (r: PostResult)
    ensures r.response.headers == JsonHeaders
    ensures r.response.status in {200, 400, 500, 502}
    ensures |r.calls| <= 2
    ensures r.calls != [] ==> r.calls[0].AudienceCall? && r.record.Some?
    ensures |r.calls| == 2 ==> r.calls[1].EmailCall?
    ensures r.response.status == 200 <==> r.response.body.SuccessBody?
    ensures r.response.body.SuccessBody? ==> r.response.body.success && |r.calls| == 2
  {
    match Admit(requestText, env, parse)
    case Unreadable => ServerError(UnreadableBody, [], None)
    case InvalidEmail => PostResult(Respond(400, ErrorBody(InvalidEmailMessage)), [], None, None)
    case Unconfigured => ServerError(MissingConfiguration, [], None)
    case Proceed(config, email, record) => Signup(config, email, record, audience, welcome, parse)
  }

  /** `onRequestOptions`: the cross-origin headers and no body, with the default status. */
  function Options(): (r: Response)
    ensures r.body == NoBody && r.headers == CorsHeaders && IsOk(r.status)
  {
    Response(200, CorsHeaders, NoBody)
  }
}
