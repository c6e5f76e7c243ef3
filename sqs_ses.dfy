/** The queue-to-email dispatcher: template resolution, send-request assembly,
    and the fail-fast handler that walks one batch of queued bodies. */
module SqsSes {
  import opened Wrappers
  import opened Ascii
  import opened Json
  import opened Confirmation

  // ----- determineTemplate -----

  const EmailConfirmationBase := "EmailConfirmation"
  const PasswordResetBase := "PasswordResetConfirmation"

  /** The template family: `NewUser` selects the e-mail confirmation family,
      every other type string the password-reset family. */
  function TemplateBase(t: ConfirmationType): (base: string)
    ensures base == EmailConfirmationBase <==> t == NewUser
    ensures base == PasswordResetBase <==> t != NewUser
  {
    if t == NewUser then EmailConfirmationBase else PasswordResetBase
  }

  /** The SES template name for a type and a language code. Codes shorter
      than two characters select the base template; longer ones are appended
      whole, first character upper-cased and the rest lower-cased. */
  function DetermineTemplate(confirmType: ConfirmationType, lang: string): (name: string)
    ensures TemplateBase(confirmType) <= name
    ensures |lang| <= 1 ==> name == TemplateBase(confirmType)
    ensures |lang| >= 2 ==> |name| == |TemplateBase(confirmType)| + |lang|
    ensures |lang| >= 2 ==>
      name[|TemplateBase(confirmType)|..] == [UpperChar(lang[0])] + Lower(lang[1..])
  {
    if confirmType == NewUser then
      if |lang| > 1 then EmailConfirmationBase + Upper(lang[..1]) + Lower(lang[1..])
      else EmailConfirmationBase
    else
      if |lang| > 1 then PasswordResetBase + Upper(lang[..1]) + Lower(lang[1..])
      else PasswordResetBase
  }

  /** Every template name starts with exactly one of the two bases, and which
      one is decided by the type alone. */
  lemma TemplateHasExactlyOneBase(confirmType: ConfirmationType, lang: string)
    ensures EmailConfirmationBase <= DetermineTemplate(confirmType, lang) <==> confirmType == NewUser
    ensures PasswordResetBase <= DetermineTemplate(confirmType, lang) <==> confirmType != NewUser
  {
    var name := DetermineTemplate(confirmType, lang);
    assert name[0] == TemplateBase(confirmType)[0];
  }

  /** The language suffix is the whole code up to case: lower-casing it gives
      the lower-cased code back. */
  lemma TemplateKeepsWholeLang(confirmType: ConfirmationType, lang: string)
    requires |lang| >= 2
    ensures var name := DetermineTemplate(confirmType, lang);
      Lower(name[|TemplateBase(confirmType)|..]) == Lower(lang)
  {
    var suffix := DetermineTemplate(confirmType, lang)[|TemplateBase(confirmType)|..];
    var tail := Lower(lang[1..]);
    assert suffix == [UpperChar(lang[0])] + tail;
    forall i | 0 <= i < |lang| ensures LowerChar(suffix[i]) == Lower(lang)[i] {
      if i > 0 {
        assert suffix[i] == tail[i - 1];
        assert lang[1..][i - 1] == lang[i];
      }
    }
    LowerByChars(suffix, Lower(lang));
  }

  /** Codes that agree up to case select the same template. */
  lemma TemplateIgnoresLangCase(confirmType: ConfirmationType, a: string, b: string)
    requires Lower(a) == Lower(b)
    ensures DetermineTemplate(confirmType, a) == DetermineTemplate(confirmType, b)
  {
    assert |a| == |b|;
    if |a| >= 2 {
      assert LowerChar(a[0]) == LowerChar(b[0]);
      assert UpperChar(a[0]) == UpperChar(b[0]);
      assert Lower(a[1..]) == Lower(b[1..]) by {
        assert forall i | 0 <= i < |a| - 1 :: Lower(a[1..])[i] == Lower(a)[i + 1];
        assert forall i | 0 <= i < |b| - 1 :: Lower(b[1..])[i] == Lower(b)[i + 1];
      }
    }
  }

  /** The resolution table the template authors rely on. */
  lemma TemplateTable()
    ensures DetermineTemplate(NewUser, "") == "EmailConfirmation"
    ensures DetermineTemplate(NewUser, "en") == "EmailConfirmationEn"
    ensures DetermineTemplate(NewUser, "es") == "EmailConfirmationEs"
    ensures DetermineTemplate(NewUser, "de") == "EmailConfirmationDe"
    ensures DetermineTemplate(ResetPassword, "de") == "PasswordResetConfirmationDe"
    ensures DetermineTemplate(ResetPassword, "x") == "PasswordResetConfirmation"
    ensures DetermineTemplate(ResetPassword, "EN-us") == "PasswordResetConfirmationEn-us"
    ensures DetermineTemplate("Unknown", "es") == "PasswordResetConfirmationEs"
  {
  }

  // ----- sendEmail: template data and request assembly -----

  const TemplateDataPrefix := "{\"url\": \""
  const TemplateDataSuffix := "\"}"

  /** The template data: a one-member JSON object carrying the link, written
      with a space after the colon and without escaping the link. */
  function TemplateData(url: string): (data: string)
    ensures TemplateDataPrefix <= data
    ensures |data| == |TemplateDataPrefix| + |url| + |TemplateDataSuffix|
    ensures data[|TemplateDataPrefix|..|TemplateDataPrefix| + |url|] == url
  {
    TemplateDataPrefix + url + TemplateDataSuffix
  }

  /** Reads the link back out of template data. */
  function TemplateDataUrl(data: string): Option<string> {
    var lo := |TemplateDataPrefix|;
    if |data| >= lo + |TemplateDataSuffix| && TemplateDataPrefix <= data
       && data[|data| - |TemplateDataSuffix|..] == TemplateDataSuffix
    then Some(data[lo..|data| - |TemplateDataSuffix|])
    else None
  }

  lemma TemplateDataRoundTrip(url: string)
    ensures TemplateDataUrl(TemplateData(url)) == Some(url)
  {
    var data := TemplateData(url);
    assert data[|data| - |TemplateDataSuffix|..] == TemplateDataSuffix;
  }

  datatype MessageTag = MessageTag(name: string, value: string)

  /** The SES v2 `SendEmailInput` as this pipeline fills it. */
  datatype SendRequest = SendRequest(
    toAddresses: seq<string>,
    fromEmailAddress: string,
    templateName: string,
    templateData: string,
    emailTags: seq<MessageTag>)

  const ConfirmationTag := MessageTag("email_type", "confirmation")

  /** The request `sendEmail` submits for one record and one sender. */
  function BuildSendRequest(confirm: UserConfirmation, from: string): (req: SendRequest)
    ensures req.toAddresses == [confirm.email]
    ensures req.fromEmailAddress == from
    ensures req.templateName == DetermineTemplate(confirm.confirmationType, confirm.lang)
    ensures TemplateDataUrl(req.templateData) == Some(ConfirmUrl(confirm))
    ensures req.emailTags == [MessageTag("email_type", "confirmation")]
  {
    var templateName := DetermineTemplate(confirm.confirmationType, confirm.lang);
    var templateData := TemplateData(ConfirmUrl(confirm));
    TemplateDataRoundTrip(ConfirmUrl(confirm));
    SendRequest([confirm.email], from, templateName, templateData, [ConfirmationTag])
  }

  /** A new user with language `en` gets the English confirmation template,
      addressed to them, carrying their link. */
  lemma EndToEndExample(confirm: UserConfirmation, from: string)
    requires confirm.confirmationType == NewUser && confirm.userLoginId == 123
    requires confirm.email == "a@b.com" && confirm.lang == "en"
    ensures BuildSendRequest(confirm, from).templateName == "EmailConfirmationEn"
    ensures TemplateDataUrl(BuildSendRequest(confirm, from).templateData)
            == Some(confirm.baseUrl + "/confirm/newuser/123/" + confirm.token)
    ensures BuildSendRequest(confirm, from).toAddresses == ["a@b.com"]
    ensures BuildSendRequest(confirm, from).fromEmailAddress == from
  {
    ConfirmUrlExample(confirm);
    TemplateTable();
  }

  // ----- collaborators -----

  /** The name of the secret that holds the sender address. */
  const NoReplySecretName := "noreply/Email"

  /** What the code cannot see, as values: the configuration load, the
      text-level JSON parser, the secret lookup and the SES send. The k-th
      lookup and the k-th send of an invocation are answered by
      `secretLookup(name, k)` and `sesSend(k, request)`. */
  datatype Env = Env(
    loadConfig: Option<string>,                      // None: loaded; Some(cause): failed
    parse: string -> Document,
    secretLookup: (string, nat) -> Result<string, string>,
    sesSend: (nat, SendRequest) -> Option<string>)   // None: accepted; Some(cause): rejected

  datatype HandlerError =
    | ConfigError(cause: string)
    | DeserializeError(decodeError: DecodeError)
    | SecretError(cause: string)
    | SendError(templateName: string, cause: string)

  /** `sendEmail`: assembles the request and submits it once. The submitted
      request is reported as a ghost value for the send log. */
  method SendEmail(env: Env, call: nat, confirm: UserConfirmation, from: string)
    returns (err: Option<HandlerError>, ghost request: SendRequest)
    ensures request == BuildSendRequest(confirm, from)
    ensures env.sesSend(call, request).None? ==> err == None
    ensures env.sesSend(call, request).Some? ==>
      err == Some(SendError(DetermineTemplate(confirm.confirmationType, confirm.lang),
                            env.sesSend(call, request).value))
  {
    var input := BuildSendRequest(confirm, from);
    request := input;
    var answer := env.sesSend(call, input);
    if answer.Some? {
      err := Some(SendError(input.templateName, answer.value));
    } else {
      err := None;
    }
  }

  // ----- handleRequest: specification -----

  /** What happened to one record. */
  datatype Step =
    | DecodeFailed(decodeError: DecodeError)
    | SecretFailed(secretCause: string)
    | SendFailed(request: SendRequest, sendCause: string)
    | Sent(request: SendRequest)

  /** Record `k` of a batch: decode, then look up the sender, then send. */
  function Attempt(env: Env, body: string, k: nat): (step: Step)
    ensures step.DecodeFailed? <==> UserConfirmationFromJson(env.parse(body)).Failure?
    ensures step.SecretFailed? ==> env.secretLookup(NoReplySecretName, k).Failure?
    ensures RequestOf(step).Some? ==>
      && UserConfirmationFromJson(env.parse(body)).Success?
      && env.secretLookup(NoReplySecretName, k).Success?
      && RequestOf(step).value == BuildSendRequest(UserConfirmationFromJson(env.parse(body)).value,
                                                   env.secretLookup(NoReplySecretName, k).value)
    ensures step.Sent? <==> RequestOf(step).Some? && env.sesSend(k, step.request).None?
  {
    match UserConfirmationFromJson(env.parse(body))
    case Failure(e) => DecodeFailed(e)
    case Success(confirm) =>
      match env.secretLookup(NoReplySecretName, k)
      case Failure(cause) => SecretFailed(cause)
      case Success(from) =>
        var req := BuildSendRequest(confirm, from);
        match env.sesSend(k, req)
        case Some(cause) => SendFailed(req, cause)
        case None => Sent(req)
  }

  function StepError(s: Step): Option<HandlerError> {
    match s
    case DecodeFailed(e) => Some(DeserializeError(e))
    case SecretFailed(cause) => Some(SecretError(cause))
    case SendFailed(req, cause) => Some(SendError(req.templateName, cause))
    case Sent(_) => None
  }

  /** The request a step submitted, if it got that far. */
  function RequestOf(s: Step): Option<SendRequest> {
    match s
    case SendFailed(req, _) => Some(req)
    case Sent(req) => Some(req)
    case _ => None
  }

  /** `steps` lists, record by record, what happens to each record of the
      batch when it is handled. */
  predicate IsStepsOf(env: Env, bodies: seq<string>, steps: seq<Step>) {
    && |steps| == |bodies|
    && forall k {:trigger Attempt(env, bodies[k], k)} :: 0 <= k < |bodies| ==> steps[k] == Attempt(env, bodies[k], k)
  }

  /** The steps of a whole batch, as if none aborted. */
  function Steps(env: Env, bodies: seq<string>): (steps: seq<Step>)
    ensures IsStepsOf(env, bodies, steps)
  {
    seq(|bodies|, k requires 0 <= k < |bodies| => Attempt(env, bodies[k], k))
  }

  /** The handler's result and the log of submitted requests. */
  datatype BatchOutcome = BatchOutcome(err: Option<HandlerError>, sent: seq<SendRequest>)

  /** Fail-fast processing of steps `i..`: each sent step adds its request to
      the log; the first other step ends the run with its error (and its
      request, if it failed at the send). */
  function RunSteps(steps: seq<Step>, i: nat): (o: BatchOutcome)
    requires i <= |steps|
    ensures |o.sent| <= |steps| - i
    ensures o.err.None? ==> |o.sent| == |steps| - i
    decreases |steps| - i
  {
    if i == |steps| then BatchOutcome(None, [])
    else if steps[i].Sent? then
      var rest := RunSteps(steps, i + 1);
      BatchOutcome(rest.err, [steps[i].request] + rest.sent)
    else
      BatchOutcome(StepError(steps[i]), if steps[i].SendFailed? then [steps[i].request] else [])
  }

  /** The specification of `handleRequest`. */
  function HandleBatch(env: Env, bodies: seq<string>): (o: BatchOutcome)
    ensures |o.sent| <= |bodies|
    ensures o.err.None? ==> env.loadConfig.None? && |o.sent| == |bodies|
  {
    if env.loadConfig.Some? then BatchOutcome(Some(ConfigError(env.loadConfig.value)), [])
    else RunSteps(Steps(env, bodies), 0)
  }

  /** The first step, from `i` on, that is not a completed send (|steps| if
      there is none). */
  function FirstFailure(steps: seq<Step>, i: nat): (f: nat)
    requires i <= |steps|
    ensures i <= f <= |steps|
    ensures forall k :: i <= k < f ==> steps[k].Sent?
    ensures f < |steps| ==> !steps[f].Sent?
    decreases |steps| - i
  {
    if i == |steps| || !steps[i].Sent? then i else FirstFailure(steps, i + 1)
  }

  // ----- handleRequest: the loop -----

  /** One iteration of `handleRequest`'s loop, on record `k` of the batch:
      decode the body, look up the sender, send. Returns the error that ends
      the batch, if any, and, as a ghost value, the request it submitted, if
      it got that far. */
  method HandleRecord(env: Env, bodies: seq<string>, k: nat, ghost steps: seq<Step>)
    returns (err: Option<HandlerError>, ghost request: Option<SendRequest>)
    requires IsStepsOf(env, bodies, steps) && k < |bodies|
    ensures err == StepError(steps[k])
    ensures request == RequestOf(steps[k])
  {
    assert steps[k] == Attempt(env, bodies[k], k);
    var confirm := UserConfirmationFromJson(env.parse(bodies[k]));
    if confirm.Failure? {
      return Some(DeserializeError(confirm.error)), None;
    }
    var fromAddress := env.secretLookup(NoReplySecretName, k);
    if fromAddress.Failure? {
      return Some(SecretError(fromAddress.error)), None;
    }
    var sendErr, submitted := SendEmail(env, k, confirm.value, fromAddress.value);
    return sendErr, Some(submitted);
  }

  /** One step of the fail-fast run, as the loop of `handleRequest` takes it. */
  lemma RunStepsAdvance(steps: seq<Step>, i: nat, sent: seq<SendRequest>)
    requires i < |steps|
    requires RunSteps(steps, 0).err == RunSteps(steps, i).err
    requires RunSteps(steps, 0).sent == sent + RunSteps(steps, i).sent
    ensures steps[i].Sent? ==>
      && RunSteps(steps, 0).err == RunSteps(steps, i + 1).err
      && RunSteps(steps, 0).sent == (sent + [steps[i].request]) + RunSteps(steps, i + 1).sent
    ensures !steps[i].Sent? ==>
      && RunSteps(steps, 0).err == StepError(steps[i])
      && RunSteps(steps, 0).sent == sent + (if steps[i].SendFailed? then [steps[i].request] else [])
  {
  }

  /** The loop of `handleRequest`: handles the bodies in order and returns
      at the first failure. `sent` is the log of the send requests issued. */
  method HandleRecords(env: Env, bodies: seq<string>, ghost steps: seq<Step>)
    returns (err: Option<HandlerError>, ghost sent: seq<SendRequest>)
    requires IsStepsOf(env, bodies, steps)
    ensures err == RunSteps(steps, 0).err
    ensures sent == RunSteps(steps, 0).sent
  {
    sent := [];
    var i := 0;
    while i < |bodies|
      invariant 0 <= i <= |bodies|
      invariant RunSteps(steps, 0).err == RunSteps(steps, i).err
      invariant RunSteps(steps, 0).sent == sent + RunSteps(steps, i).sent
    {
      var recordErr, request := HandleRecord(env, bodies, i, steps);
      RunStepsAdvance(steps, i, sent);
      if request.Some? {
        sent := sent + [request.value];
      }
      if recordErr.Some? {
        err := recordErr;
        return;
      }
      i := i + 1;
    }
    err := None;
  }

  /** `handleRequest`: loads the configuration, then runs the loop over the
      batch. */
  method HandleRequest(env: Env, bodies: seq<string>)
    returns (err: Option<HandlerError>, ghost sent: seq<SendRequest>)
    ensures err == HandleBatch(env, bodies).err
    ensures sent == HandleBatch(env, bodies).sent
  {
    if env.loadConfig.Some? {
      err := Some(ConfigError(env.loadConfig.value));
      sent := [];
      return;
    }
    err, sent := HandleRecords(env, bodies, Steps(env, bodies));
  }

  // ----- handleRequest: properties -----

  lemma {:induction false} RunStepsFacts(steps: seq<Step>, i: nat)
    requires i <= |steps|
    ensures var o := RunSteps(steps, i);
      var f := FirstFailure(steps, i);
      && (o.err.None? <==> f == |steps|)
      && (f < |steps| ==> o.err == StepError(steps[f]))
      && |o.sent| == f - i + (if f < |steps| && steps[f].SendFailed? then 1 else 0)
      && forall j :: 0 <= j < |o.sent| ==> RequestOf(steps[i + j]) == Some(o.sent[j])
    decreases |steps| - i
  {
    if i < |steps| && steps[i].Sent? {
      RunStepsFacts(steps, i + 1);
      var o := RunSteps(steps, i);
      var rest := RunSteps(steps, i + 1);
      forall j | 0 <= j < |o.sent| ensures RequestOf(steps[i + j]) == Some(o.sent[j]) {
        if j > 0 {
          assert o.sent[j] == rest.sent[j - 1];
          assert i + 1 + (j - 1) == i + j;
        }
      }
    }
  }

  lemma {:induction false} RunStepsIgnoresLater(steps: seq<Step>, more: seq<Step>, i: nat)
    requires i <= |steps| && FirstFailure(steps, i) < |steps|
    ensures RunSteps(steps + more, i) == RunSteps(steps, i)
    decreases |steps| - i
  {
    assert (steps + more)[i] == steps[i];
    if steps[i].Sent? {
      RunStepsIgnoresLater(steps, more, i + 1);
    }
  }

  /** The handler returns no error exactly when the configuration loads and
      every record decodes, gets a sender and is accepted by SES. */
  lemma HandleSucceedsIff(env: Env, bodies: seq<string>)
    ensures HandleBatch(env, bodies).err.None? <==>
      env.loadConfig.None? && forall k :: 0 <= k < |bodies| ==> Attempt(env, bodies[k], k).Sent?
  {
    if env.loadConfig.None? {
      var steps := Steps(env, bodies);
      RunStepsFacts(steps, 0);
      var f := FirstFailure(steps, 0);
      if HandleBatch(env, bodies).err.Some? {
        assert f < |bodies| && !Attempt(env, bodies[f], f).Sent?;
      }
    }
  }

  /** A run without error sends every step, and its log lists their
      requests in step order. */
  lemma RunStepsSuccess(steps: seq<Step>)
    requires RunSteps(steps, 0).err.None?
    ensures |RunSteps(steps, 0).sent| == |steps|
    ensures forall k :: 0 <= k < |steps| ==> steps[k].Sent? && RunSteps(steps, 0).sent[k] == steps[k].request
  {
    RunStepsFacts(steps, 0);
    var sent := RunSteps(steps, 0).sent;
    forall k | 0 <= k < |steps| ensures steps[k].Sent? && sent[k] == steps[k].request {
      assert RequestOf(steps[0 + k]) == Some(sent[k]);
    }
  }

  /** On success the log holds one request per record, in record order, each
      built from that record and the sender looked up for it. */
  lemma HandleSuccessLog(env: Env, bodies: seq<string>)
    requires HandleBatch(env, bodies).err.None?
    ensures |HandleBatch(env, bodies).sent| == |bodies|
    ensures forall k :: 0 <= k < |bodies| ==>
      && UserConfirmationFromJson(env.parse(bodies[k])).Success?
      && env.secretLookup(NoReplySecretName, k).Success?
      && HandleBatch(env, bodies).sent[k] == BuildSendRequest(
           UserConfirmationFromJson(env.parse(bodies[k])).value,
           env.secretLookup(NoReplySecretName, k).value)
  {
    var steps := Steps(env, bodies);
    RunStepsSuccess(steps);
    var sent := HandleBatch(env, bodies).sent;
    forall k | 0 <= k < |bodies|
      ensures UserConfirmationFromJson(env.parse(bodies[k])).Success?
      ensures env.secretLookup(NoReplySecretName, k).Success?
      ensures sent[k] == BuildSendRequest(
           UserConfirmationFromJson(env.parse(bodies[k])).value,
           env.secretLookup(NoReplySecretName, k).value)
    {
      var step := Attempt(env, bodies[k], k);
      assert steps[k] == step;
      assert RequestOf(step) == Some(sent[k]);
    }
  }

  /** A failed configuration load processes no record at all. */
  lemma HandleConfigFailure(env: Env, bodies: seq<string>)
    requires env.loadConfig.Some?
    ensures HandleBatch(env, bodies) == BatchOutcome(Some(ConfigError(env.loadConfig.value)), [])
  {
  }

  /** Fail-fast on any sequence of steps: when step `f` is the first that is
      not sent, every earlier step was sent, the error is `f`'s, and the log
      holds the earlier steps' requests, plus `f`'s own if it failed at the
      send. */
  lemma RunStepsFailsFast(steps: seq<Step>)
    requires FirstFailure(steps, 0) < |steps|
    ensures var f := FirstFailure(steps, 0);
      var o := RunSteps(steps, 0);
      && (forall k :: 0 <= k < f ==> steps[k].Sent?)
      && !steps[f].Sent?
      && o.err == StepError(steps[f])
      && |o.sent| == f + (if steps[f].SendFailed? then 1 else 0)
      && forall j :: 0 <= j < |o.sent| ==> RequestOf(steps[j]) == Some(o.sent[j])
  {
    RunStepsFacts(steps, 0);
    var o := RunSteps(steps, 0);
    forall j | 0 <= j < |o.sent| ensures RequestOf(steps[j]) == Some(o.sent[j]) {
      assert RequestOf(steps[0 + j]) == Some(o.sent[j]);
    }
  }

  /** Fail-fast for a batch whose configuration loads: the records before
      the first failing one were all sent, in order, and nothing after it
      was looked at. */
  lemma HandleFailsFast(env: Env, bodies: seq<string>)
    requires env.loadConfig.None? && FirstFailure(Steps(env, bodies), 0) < |bodies|
    ensures var steps := Steps(env, bodies);
      var f := FirstFailure(steps, 0);
      var o := HandleBatch(env, bodies);
      && (forall k :: 0 <= k < f ==> steps[k].Sent?)
      && !steps[f].Sent?
      && o.err == StepError(steps[f])
      && |o.sent| == f + (if steps[f].SendFailed? then 1 else 0)
      && forall j :: 0 <= j < |o.sent| ==> RequestOf(steps[j]) == Some(o.sent[j])
  {
    RunStepsFailsFast(Steps(env, bodies));
  }

  /** Records after the first failing one are never looked at: appending
      more bodies to the batch changes neither the error nor the log. */
  lemma HandleIgnoresRecordsAfterFailure(env: Env, bodies: seq<string>, later: seq<string>)
    requires FirstFailure(Steps(env, bodies), 0) < |bodies|
    ensures HandleBatch(env, bodies + later) == HandleBatch(env, bodies)
  {
    if env.loadConfig.None? {
      var steps := Steps(env, bodies);
      var all := Steps(env, bodies + later);
      var more := all[|bodies|..];
      forall k | 0 <= k < |bodies| ensures all[k] == steps[k] {
        assert (bodies + later)[k] == bodies[k];
        assert all[k] == Attempt(env, (bodies + later)[k], k);
        assert steps[k] == Attempt(env, bodies[k], k);
      }
      assert all == steps + more;
      RunStepsIgnoresLater(steps, more, 0);
    }
  }

  /** A batch of two whose first body is malformed reports the decode error
      and sends nothing. */
  lemma FirstBodyMalformed(env: Env, first: string, second: string)
    requires env.loadConfig.None? && env.parse(first) == Malformed
    ensures HandleBatch(env, [first, second]) == BatchOutcome(Some(DeserializeError(SyntaxError)), [])
  {
    assert Steps(env, [first, second])[0] == DecodeFailed(SyntaxError);
  }
}
