/**
 * What the signup endpoint promises its callers: the outcome table, the
 * order and number of upstream calls, that upstream text never reaches the
 * client, how the welcome email is addressed, and that every response
 * carries the cross-origin headers.
 */
module WaitlistSignupProperties {
  import opened Wrappers
  import opened JsStrings
  import opened JsonValues
  import opened WaitlistSignup

  /** The request passed the checks and would reach the upstream provider. */
  predicate Admitted(requestText: JsString, env: Env, parse: Parser)
  {
    Admit(requestText, env, parse).Proceed?
  }

  /** The contact was added, or was already in the audience. */
  predicate Registered(audience: Reply)
  {
    audience.Reply? && (IsOk(audience.status) || audience.status == Conflict)
  }

  /** The welcome email was accepted by the provider. */
  predicate Delivered(welcome: Reply)
  {
    welcome.Reply? && IsOk(welcome.status)
  }

  /** A body that is not JSON, or is `null`, falls through to the generic 500 before anything else. */
  lemma UnreadableBodyIsServerError(requestText: JsString, env: Env, audience: Reply, welcome: Reply, parse: Parser)
    requires !Readable(requestText, parse)
    ensures var r := Post(requestText, env, audience, welcome, parse);
            && r.response == Response(500, JsonHeaders, ErrorBody(GenericMessage))
            && r.calls == [] && r.record == None && r.diagnostic == Some(UnreadableBody)
  {
  }

  /**
   * The response is 400 exactly when the body's email is missing, not a
   * string, empty or without an `'@'`; the message is fixed and nothing is
   * sent upstream.
   */
  lemma InvalidEmailIsRejected(requestText: JsString, env: Env, audience: Reply, welcome: Reply, parse: Parser)
    ensures var r := Post(requestText, env, audience, welcome, parse);
            r.response.status == 400 <==> Readable(requestText, parse) && !EmailAccepted(requestText, parse)
    ensures var r := Post(requestText, env, audience, welcome, parse);
            r.response.status == 400 ==>
              && r.response == Response(400, JsonHeaders, ErrorBody(InvalidEmailMessage))
              && r.calls == [] && r.record == None && r.diagnostic == None
  {
    if Admitted(requestText, env, parse) {
      AdmittedProceeds(requestText, env, audience, welcome, parse);
    }
  }

  /**
   * With a valid email and a missing or empty API key or audience id, or a
   * sender address that trims to nothing, the response is the generic 500
   * and nothing is sent upstream.
   */
  lemma IncompleteConfigIsServerError(requestText: JsString, env: Env, audience: Reply, welcome: Reply, parse: Parser)
    requires EmailAccepted(requestText, parse)
    requires !Present(env.apiKey) || !Present(env.audienceId) || env.fromEmail.None? || AllWhiteSpace(env.fromEmail.value)
    ensures var r := Post(requestText, env, audience, welcome, parse);
            && r.response == Response(500, JsonHeaders, ErrorBody(GenericMessage))
            && r.calls == [] && r.record == None && r.diagnostic == Some(MissingConfiguration)
  {
  }

  /** The configuration of the handler's test for a missing sender: a sender of three spaces. */
  lemma BlankSenderIsIncomplete()
    ensures ReadConfig(Env(Some(Lit("test-key")), Some(Lit("aud_test")), Some(Lit("   ")))) == None
  {
    var blank := Lit("   ");
    assert blank[0] == 0x20 && blank[1] == 0x20 && blank[2] == 0x20;
    assert AllWhiteSpace(blank);
  }

  /** Only the sender is trimmed: an API key and an audience id of blanks pass the check. */
  lemma BlankKeyIsAccepted()
    ensures ReadConfig(Env(Some(Lit(" ")), Some(Lit(" ")), Some(Lit("a@b")))).Some?
  {
    var sender := Lit("a@b");
    assert sender[0] == 0x61;
  }

  /**
   * When adding the contact fails with a status that is neither 2xx nor 409,
   * whatever its body, the response is the generic 500, the welcome email is
   * never attempted, and the upstream reason only goes to the error log.
   */
  lemma AudienceFailureStopsSignup(requestText: JsString, env: Env, status: int, text: JsString, welcome: Reply,
                                   parse: Parser)
    requires Admitted(requestText, env, parse)
    requires !IsOk(status) && status != Conflict
    ensures var r := Post(requestText, env, Reply(status, text), welcome, parse);
            && r.response == Response(500, JsonHeaders, ErrorBody(GenericMessage))
            && |r.calls| == 1 && r.calls[0].AudienceCall?
            && r.diagnostic == Some(AudienceFailed(ReasonFor(ParseResendResponse(text, parse))))
  {
  }

  /** An admitted request is handed to the upstream part with its configuration, email and record. */
  lemma AdmittedProceeds(requestText: JsString, env: Env, audience: Reply, welcome: Reply, parse: Parser)
    requires Admitted(requestText, env, parse)
    ensures var a := Admit(requestText, env, parse);
            && a.Proceed?
            && Post(requestText, env, audience, welcome, parse) == Signup(a.config, a.email, a.record, audience, welcome, parse)
  {
  }

  /**
   * When a `fetch`, or the reading of its body, rejects, the response is the
   * generic 500, also for the welcome email (not 502); the calls made so far
   * stay made.
   */
  lemma UpstreamRejectionIsServerError(requestText: JsString, env: Env, audience: Reply, welcome: Reply,
                                       parse: Parser)
    requires Admitted(requestText, env, parse)
    requires audience.Rejected? || (Registered(audience) && welcome.Rejected?)
    ensures var r := Post(requestText, env, audience, welcome, parse);
            && r.response == Response(500, JsonHeaders, ErrorBody(GenericMessage))
            && |r.calls| == (if audience.Rejected? then 1 else 2)
            && r.diagnostic == Some(UpstreamRejected)
  {
    var a := Admit(requestText, env, parse);
    AdmittedProceeds(requestText, env, audience, welcome, parse);
    SignupCallCount(a.config, a.email, a.record, audience, welcome, parse);
  }

  /**
   * When the contact was added (or already present) and the welcome email
   * is refused, the response is 502 with its own fixed message: the
   * provider's reason is logged, never returned.
   */
  lemma WelcomeFailureIsBadGateway(requestText: JsString, env: Env, audience: Reply, status: int, text: JsString,
                                   parse: Parser)
    requires Admitted(requestText, env, parse) && Registered(audience)
    requires !IsOk(status)
    ensures var r := Post(requestText, env, audience, Reply(status, text), parse);
            && r.response == Response(502, JsonHeaders, ErrorBody(WelcomeEmailMessage))
            && |r.calls| == 2
            && r.diagnostic == Some(WelcomeEmailFailed(ReasonFor(ParseResendResponse(text, parse))))
  {
  }

  /**
   * When both calls succeed the response is 200 with `success: true`, and
   * `alreadyOnWaitlist` is whether the audience answered 409; exactly two
   * calls were made, the contact first and the email second.
   */
  lemma SignupSucceeds(requestText: JsString, env: Env, status: int, text: JsString, welcome: Reply, parse: Parser)
    requires Admitted(requestText, env, parse) && Registered(Reply(status, text)) && Delivered(welcome)
    ensures var r := Post(requestText, env, Reply(status, text), welcome, parse);
            var config, email := ReadConfig(env).value, NormalizeEmail(RequestEmail(requestText, parse));
            && r.response == Response(200, JsonHeaders, SuccessBody(true, status == Conflict))
            && r.calls == [AudienceCall(config.audienceId, config.apiKey, email),
                           EmailCall(config.apiKey, config.fromEmail, [email], Welcome)]
            && r.diagnostic == None
  {
  }

  /** The outcome table: which of the four statuses a request gets, in both directions. */
  lemma StatusTable(requestText: JsString, env: Env, audience: Reply, welcome: Reply, parse: Parser)
    ensures var r := Post(requestText, env, audience, welcome, parse);
            var admitted := Admitted(requestText, env, parse);
            && (r.response.status == 200 <==> admitted && Registered(audience) && Delivered(welcome))
            && (r.response.status == 502 <==> admitted && Registered(audience) && welcome.Reply? && !Delivered(welcome))
            && (r.response.status == 400 <==> Readable(requestText, parse) && !EmailAccepted(requestText, parse))
            && (r.response.status == 500 <==> !Readable(requestText, parse)
                                              || (EmailAccepted(requestText, parse) && ReadConfig(env).None?)
                                              || (admitted && !Registered(audience))
                                              || (admitted && Registered(audience) && welcome.Rejected?))
  {
    if Admitted(requestText, env, parse) {
      var a := Admit(requestText, env, parse);
      AdmittedProceeds(requestText, env, audience, welcome, parse);
      SignupStatus(a.config, a.email, a.record, audience, welcome, parse);
    }
  }

  /**
   * The call log: nothing is sent unless the request is admitted; the
   * contact is added first; the welcome email is sent only after the
   * contact was added or found present, and never twice.
   */
  lemma CallLog(requestText: JsString, env: Env, audience: Reply, welcome: Reply, parse: Parser)
    ensures var r := Post(requestText, env, audience, welcome, parse);
            && (r.calls != [] <==> Admitted(requestText, env, parse))
            && (|r.calls| == 2 <==> Admitted(requestText, env, parse) && Registered(audience))
            && |r.calls| <= 2
            && (r.calls != [] ==> r.calls[0].AudienceCall?)
            && (|r.calls| == 2 ==> r.calls[1].EmailCall?)
  {
    if Admitted(requestText, env, parse) {
      var a := Admit(requestText, env, parse);
      AdmittedProceeds(requestText, env, audience, welcome, parse);
      SignupCallCount(a.config, a.email, a.record, audience, welcome, parse);
    }
  }

  /** Past validation, the status depends on the two upstream outcomes alone. */
  lemma SignupStatus(config: Config, email: JsString, record: SignupRecord, audience: Reply, welcome: Reply,
                     parse: Parser)
    ensures var r := Signup(config, email, record, audience, welcome, parse);
            && (r.response.status == 200 <==> Registered(audience) && Delivered(welcome))
            && (r.response.status == 502 <==> Registered(audience) && welcome.Reply? && !Delivered(welcome))
            && (r.response.status == 500 <==> !Registered(audience) || welcome.Rejected?)
  {
  }

  /** Past validation, the welcome email is attempted exactly when the contact was registered. */
  lemma SignupCallCount(config: Config, email: JsString, record: SignupRecord, audience: Reply, welcome: Reply,
                        parse: Parser)
    ensures |Signup(config, email, record, audience, welcome, parse).calls| == 2 <==> Registered(audience)
  {
  }

  /**
   * The contact and the welcome email go to the request's email, trimmed and
   * lower-cased (in either order); the email comes from the trimmed sender
   * address; both calls carry the API key and the audience id as they are
   * configured.
   */
  lemma WelcomeEmailAddressing(requestText: JsString, env: Env, audience: Reply, welcome: Reply, parse: Parser)
    requires Admitted(requestText, env, parse) && Registered(audience)
    ensures var r := Post(requestText, env, audience, welcome, parse);
            var email := RequestEmail(requestText, parse);
            && Trim(ToLower(email)) == ToLower(Trim(email))
            && r.calls == [AudienceCall(env.audienceId.value, env.apiKey.value, Trim(ToLower(email))),
                           EmailCall(env.apiKey.value, Trim(env.fromEmail.value), [Trim(ToLower(email))], Welcome)]
  {
    AdmittedProceeds(requestText, env, audience, welcome, parse);
    var a := Admit(requestText, env, parse);
    var email := RequestEmail(requestText, parse);
    ToLowerTrimCommute(email);
    assert a.email == Trim(ToLower(email));
    assert a.config == Config(env.apiKey.value, env.audienceId.value, Trim(env.fromEmail.value));
    RegisteredSignupCalls(a.config, a.email, a.record, audience, welcome, parse);
  }

  /** Once the contact is registered, the welcome email is always attempted, right after it. */
  lemma RegisteredSignupCalls(config: Config, email: JsString, record: SignupRecord, audience: Reply, welcome: Reply,
                              parse: Parser)
    requires Registered(audience)
    ensures Signup(config, email, record, audience, welcome, parse).calls
              == [AudienceCall(config.audienceId, config.apiKey, email), EmailCall(config.apiKey, config.fromEmail, [email], Welcome)]
  {
  }

  /** Two replies that agree on their status (or both rejected). */
  predicate SameStatus(a: Reply, b: Reply)
  {
    (a.Rejected? && b.Rejected?) || (a.Reply? && b.Reply? && a.status == b.status)
  }

  /**
   * What the client sees, and what is sent upstream, depend on the upstream
   * statuses only: no upstream body text, JSON or not, reaches the response.
   */
  lemma ResponseIgnoresUpstreamText(requestText: JsString, env: Env, audience: Reply, audience': Reply,
                                    welcome: Reply, welcome': Reply, parse: Parser)
    requires SameStatus(audience, audience') && SameStatus(welcome, welcome')
    ensures var r, r' := Post(requestText, env, audience, welcome, parse), Post(requestText, env, audience', welcome', parse);
            r.response == r'.response && r.calls == r'.calls && r.record == r'.record
  {
    if Admitted(requestText, env, parse) {
      var a := Admit(requestText, env, parse);
      AdmittedProceeds(requestText, env, audience, welcome, parse);
      AdmittedProceeds(requestText, env, audience', welcome', parse);
      SignupIgnoresUpstreamText(a.config, a.email, a.record, audience, audience', welcome, welcome', parse);
    }
  }

  lemma SignupIgnoresUpstreamText(config: Config, email: JsString, record: SignupRecord, audience: Reply,
                                  audience': Reply, welcome: Reply, welcome': Reply, parse: Parser)
    requires SameStatus(audience, audience') && SameStatus(welcome, welcome')
    ensures var r, r' := Signup(config, email, record, audience, welcome, parse),
                         Signup(config, email, record, audience', welcome', parse);
            r.response == r'.response && r.calls == r'.calls && r.record == r'.record
  {
  }

  /**
   * Reading an upstream body never fails: an empty body leaves the fallback
   * reason, text that is not JSON becomes the reason as it is, and parsed
   * JSON supplies its `message` when that is truthy.
   */
  lemma UpstreamReason(text: JsString, parse: Parser)
    ensures text == [] ==> ReasonFor(ParseResendResponse(text, parse)) == Fallback
    ensures text != [] && parse(text).None? ==> ReasonFor(ParseResendResponse(text, parse)) == ProviderMessage(JString(text))
    ensures text != [] && parse(text).Some? ==>
              var m := Get(parse(text).value, Lit("message"));
              ReasonFor(ParseResendResponse(text, parse))
                == if m.Some? && Truthy(m.value) then ProviderMessage(m.value) else Fallback
  {
  }

  /**
   * The informational record is emitted exactly for admitted requests; it
   * holds the normalised email and the attribution fields, each absent or a
   * non-empty string within its limit.
   */
  lemma SignupRecordIsSanitised(requestText: JsString, env: Env, audience: Reply, welcome: Reply, parse: Parser)
    ensures var r := Post(requestText, env, audience, welcome, parse);
            r.record.Some? <==> Admitted(requestText, env, parse)
    ensures var r := Post(requestText, env, audience, welcome, parse);
            r.record.Some? ==>
              && r.record.value.email == NormalizeEmail(RequestEmail(requestText, parse))
              && At in r.record.value.email
              && WellFormed(r.record.value.attribution)
  {
  }

  /**
   * Submitting the same address again, once the audience answers 409, sends
   * the same two calls again (a second welcome email) and differs only in
   * `alreadyOnWaitlist`.
   */
  lemma ResubmissionSendsAgain(requestText: JsString, env: Env, status: int, text: JsString, text': JsString,
                               welcome: Reply, parse: Parser)
    requires Admitted(requestText, env, parse) && IsOk(status) && Delivered(welcome)
    ensures var first := Post(requestText, env, Reply(status, text), welcome, parse);
            var again := Post(requestText, env, Reply(Conflict, text'), welcome, parse);
            && first.calls == again.calls && |again.calls| == 2
            && first.response.body == SuccessBody(true, false)
            && again.response.body == SuccessBody(true, true)
  {
  }

  /** Every response, to `POST` and to the `OPTIONS` pre-flight, carries the cross-origin headers. */
  lemma EveryResponseAllowsCrossOrigin(requestText: JsString, env: Env, audience: Reply, welcome: Reply,
                                       parse: Parser)
    ensures forall h :: h in CorsHeaders ==> h in Post(requestText, env, audience, welcome, parse).response.headers
    ensures forall h :: h in CorsHeaders ==> h in Options().headers
  {
  }

  /**
   * A sender address that neither starts nor ends with whitespace, such as
   * the one of the handler's tests, is sent exactly as configured.
   */
  lemma TrimmedSenderIsKept(env: Env)
    requires Present(env.apiKey) && Present(env.audienceId) && Present(env.fromEmail)
    requires !IsWhiteSpace(env.fromEmail.value[0]) && !IsWhiteSpace(env.fromEmail.value[|env.fromEmail.value| - 1])
    ensures ReadConfig(env) == Some(Config(env.apiKey.value, env.audienceId.value, env.fromEmail.value))
  {
    var sender := env.fromEmail.value;
    assert [] + sender + [] == sender;
    TrimUnique([], sender, []);
  }

  /** The audience id can be read back from the contact call's URL text: different audience ids give different URL texts. */
  lemma ContactUrlNamesAudience(call: Call, call': Call)
    requires call.AudienceCall? && call'.AudienceCall? && Url(call) == Url(call')
    ensures call.audienceId == call'.audienceId
  {
    var prefix := Lit("https://api.resend.com/audiences/");
    var url := Url(call);
    assert |call.audienceId| == |call'.audienceId|;
    assert call.audienceId == url[|prefix|..|prefix| + |call.audienceId|];
    assert call'.audienceId == url[|prefix|..|prefix| + |call'.audienceId|];
  }
}
