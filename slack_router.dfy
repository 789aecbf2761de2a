/**
 * The HTTP endpoints: every request's signature is checked first (a request
 * that fails is refused with 403), then the body is decoded and handed to the
 * interaction or command handler.
 *
 * The HMAC-SHA256 hex digest is a parameter; the wall clock enters as
 * `epoch` (seconds since the epoch, as `time.time()` returns them) for the
 * replay window and as `now` (local time in microseconds) for the store.
 */
module SlackRouter {
  import opened Json
  import opened TimesheetService
  import opened Responses
  import opened SlackService
  import opened InteractionHandler
  import opened CommandHandler
  import opened BlockBuilder

  datatype Settings = Settings(signingSecret: string, managerId: string)

  /** `hmac.new(key, message, sha256).hexdigest()`. */
  datatype Crypto = Crypto(hmacSha256Hex: (string, string) -> string)

  /** A request as the framework presents it: headers, the raw body, and the
      form fields parsed from it. */
  datatype Request = Request(headers: map<string, string>, body: string, form: map<string, string>)

  /** What an endpoint answers: a JSON body, the 403 of a bad signature, or the
      500 of an exception the endpoint does not catch. */
  datatype HttpReply = Reply(response: Response) | Forbidden | ServerError(exc: Exception)

  /** Replay window, in seconds. */
  const MaxAge: real := 300.0

  function Header(req: Request, name: string): string {
    if name in req.headers then req.headers[name] else ""
  }

  function FormField(req: Request, name: string): Option<string> {
    if name in req.form then Some(req.form[name]) else None
  }

  function Distance(a: real, b: real): (d: real)
    ensures d >= 0.0 && (d == a - b || d == b - a)
  {
    if a >= b then a - b else b - a
  }

  /** The signature Slack sends for a body at a timestamp. */
  function ExpectedSignature(secret: string, timestamp: string, body: string, crypto: Crypto): (r: string)
    ensures |r| >= 3 && r[..3] == "v0="
  {
    "v0=" + crypto.hmacSha256Hex(secret, "v0:" + timestamp + ":" + body)
  }

  /**
   * `verify_slack_signature`: a timestamp `int()` rejects raises ValueError;
   * one more than five minutes from the clock fails; otherwise the signature
   * header must equal the expected signature of that timestamp and body.
   */
  function VerifySignature(req: Request, settings: Settings, crypto: Crypto, rt: Runtime, epoch: real): (r: Result<bool>)
    ensures rt.parseInt(Header(req, "X-Slack-Request-Timestamp")).None? <==> r == Raise(ValueError)
    ensures r == Ok(true) <==>
      var ts := Header(req, "X-Slack-Request-Timestamp");
      rt.parseInt(ts).Some? && Distance(epoch, rt.parseInt(ts).value as real) <= MaxAge &&
      Header(req, "X-Slack-Signature") == ExpectedSignature(settings.signingSecret, ts, req.body, crypto)
  {
    var timestamp := Header(req, "X-Slack-Request-Timestamp");
    var signature := Header(req, "X-Slack-Signature");
    match rt.parseInt(timestamp)
    case None => Raise(ValueError)
    case Some(t) =>
      if Distance(epoch, t as real) > MaxAge then Ok(false)
      else Ok(signature == ExpectedSignature(settings.signingSecret, timestamp, req.body, crypto))
  }

  /** A request signed with the shared secret is accepted as long as its
      timestamp is at most five minutes away from the clock, the boundary
      included. */
  lemma SignedRequestAccepted(req: Request, settings: Settings, crypto: Crypto, rt: Runtime, epoch: real, t: int)
    requires rt.parseInt(Header(req, "X-Slack-Request-Timestamp")) == Some(t)
    requires epoch - MaxAge <= t as real <= epoch + MaxAge
    requires Header(req, "X-Slack-Signature") ==
      ExpectedSignature(settings.signingSecret, Header(req, "X-Slack-Request-Timestamp"), req.body, crypto)
    ensures VerifySignature(req, settings, crypto, rt, epoch) == Ok(true)
  {
  }

  /** A timestamp more than five minutes away is refused whatever the
      signature: a captured request cannot be replayed later. */
  lemma StaleRequestRefused(req: Request, settings: Settings, crypto: Crypto, rt: Runtime, epoch: real, t: int)
    requires rt.parseInt(Header(req, "X-Slack-Request-Timestamp")) == Some(t)
    requires t as real < epoch - MaxAge || t as real > epoch + MaxAge
    ensures VerifySignature(req, settings, crypto, rt, epoch) == Ok(false)
  {
  }

  /** The signature test that opens every endpoint: a raised exception is a 500, a
      failed check a 403. */
  function Guard(req: Request, settings: Settings, crypto: Crypto, rt: Runtime, epoch: real): (r: Option<HttpReply>)
    ensures r.None? <==> VerifySignature(req, settings, crypto, rt, epoch) == Ok(true)
    ensures r.Some? ==> r.value == Forbidden || r.value == ServerError(ValueError)
  {
    match VerifySignature(req, settings, crypto, rt, epoch)
    case Raise(e) => Some(ServerError(e))
    case Ok(valid) => if valid then None else Some(Forbidden)
  }

  /** `POST /slack/events`: echo the challenge of a URL verification,
      acknowledge anything else. */
  function HandleEvents(req: Request, settings: Settings, crypto: Crypto, rt: Runtime, epoch: real): (r: HttpReply)
    ensures VerifySignature(req, settings, crypto, rt, epoch) != Ok(true) ==> r == Guard(req, settings, crypto, rt, epoch).value
    ensures VerifySignature(req, settings, crypto, rt, epoch) == Ok(true) ==>
      match rt.loadJson(req.body)
      case None => r == ServerError(ValueError)
      case Some(payload) =>
        if !payload.Obj? then r == ServerError(AttributeError)
        else if "type" in payload.fields && payload.fields["type"] == Str("url_verification")
        then r == Reply(Challenge(if "challenge" in payload.fields then payload.fields["challenge"] else Null))
        else if "event" in payload.fields && !payload.fields["event"].Obj? then r == ServerError(AttributeError)
        else r == Reply(StatusOk)
  {
    match Guard(req, settings, crypto, rt, epoch)
    case Some(refusal) => refusal
    case None =>
      match rt.loadJson(req.body)
      case None => ServerError(ValueError)
      case Some(payload) =>
        match EventReply(payload)
        case Ok(response) => Reply(response)
        case Raise(e) => ServerError(e)
  }

  /** The events endpoint's answer to a decoded payload: the challenge of a
      URL verification, `{"status": "ok"}` otherwise. */
  function EventReply(payload: Value): Result<Response> {
    var kind :- Get(payload, "type", Null);
    if kind == Str("url_verification") then
      var challenge :- Get(payload, "challenge", Null);
      Ok(Challenge(challenge))
    else
      var event :- Get(payload, "event", EmptyObj);
      var _ :- Get(event, "type", Null);
      Ok(StatusOk)
  }

  /** A non-dict payload raises AttributeError; otherwise the answer is the
      challenge exactly for a URL verification, and the status otherwise. */
  lemma EventReplyAnswers(payload: Value)
    ensures !payload.Obj? ==> EventReply(payload) == Raise(AttributeError)
    ensures EventReply(payload).Ok? ==> EventReply(payload).value == StatusOk || EventReply(payload).value.Challenge?
    ensures EventReply(payload).Ok? && EventReply(payload).value.Challenge? <==>
      payload.Obj? && "type" in payload.fields && payload.fields["type"] == Str("url_verification")
  {
  }

  /** The interaction types handed to the interaction handler. */
  predicate Handled(kind: Value) {
    kind == Str("block_actions") || kind == Str("view_submission")
  }

  /** `POST /slack/interactions`: decode the `payload` form field (default
      "{}") and hand block actions and view submissions alike to the
      interaction handler; acknowledge other types. */
  method HandleInteractions(req: Request, settings: Settings, crypto: Crypto, rt: Runtime, epoch: real, now: int,
                            store: EntryStore, slack: SlackClient)
    returns (r: HttpReply)
    modifies store, slack
    ensures VerifySignature(req, settings, crypto, rt, epoch) != Ok(true) ==>
      r == Guard(req, settings, crypto, rt, epoch).value && store.rows == old(store.rows) &&
      slack.sentDms == old(slack.sentDms) && slack.updates == old(slack.updates)
    ensures VerifySignature(req, settings, crypto, rt, epoch) == Ok(true) ==>
      var text := if "payload" in req.form then req.form["payload"] else "{}";
      match rt.loadJson(text)
      case None =>
        r == ServerError(ValueError) && store.rows == old(store.rows) &&
        slack.sentDms == old(slack.sentDms) && slack.updates == old(slack.updates)
      case Some(payload) =>
        (!payload.Obj? ==>
          r == ServerError(AttributeError) && store.rows == old(store.rows) &&
          slack.sentDms == old(slack.sentDms) && slack.updates == old(slack.updates)) &&
        (payload.Obj? && !Handled(if "type" in payload.fields then payload.fields["type"] else Null) ==>
          r == Reply(StatusOk) && store.rows == old(store.rows) &&
          slack.sentDms == old(slack.sentDms) && slack.updates == old(slack.updates)) &&
        (payload.Obj? && Handled(if "type" in payload.fields then payload.fields["type"] else Null) ==>
          match Dispatch(payload, slack, rt, now)
          case Raise(e) =>
            r == ServerError(e) && store.rows == old(store.rows) &&
            slack.sentDms == old(slack.sentDms) && slack.updates == old(slack.updates)
          case Ok(s) =>
            r == Reply(s.reply) && store.rows == old(store.rows) + s.rows &&
            slack.sentDms == old(slack.sentDms) + (if s.dm.Some? && slack.available then [s.dm.value] else []) &&
            slack.updates == old(slack.updates) + (if s.update.Some? && slack.available then [s.update.value] else []))
  {
    var refusal := Guard(req, settings, crypto, rt, epoch);
    if refusal.Some? {
      return refusal.value;
    }
    var text := if "payload" in req.form then req.form["payload"] else "{}";
    var decoded := rt.loadJson(text);
    if decoded.None? {
      return ServerError(ValueError);
    }
    var payload := decoded.value;
    var kind := Get(payload, "type", Null);
    if kind.Raise? {
      return ServerError(kind.exc);
    }
    if Handled(kind.value) {
      var response := HandleInteraction(payload, store, slack, rt, now);
      match response {
        case Ok(body) => r := Reply(body);
        case Raise(e) => r := ServerError(e);
      }
    } else {
      r := Reply(StatusOk);
    }
  }

  /** `POST /slack/commands/timesheet`. */
  function HandleTimesheetEndpoint(req: Request, settings: Settings, crypto: Crypto, rt: Runtime, epoch: real): (r: HttpReply)
    ensures VerifySignature(req, settings, crypto, rt, epoch) != Ok(true) ==> r == Guard(req, settings, crypto, rt, epoch).value
    ensures VerifySignature(req, settings, crypto, rt, epoch) == Ok(true) ==>
      r.Reply? && r.response.Ephemeral? && r.response.text == "Fill your timesheet" && |r.response.blocks| == 18 &&
      r.response.blocks[2] == CountPicker() &&
      forall i, o :: 0 <= i < 3 && 0 <= o < 5 ==> r.response.blocks[3 + 5 * i + o] == PreviewGroup(i)[o]
  {
    match Guard(req, settings, crypto, rt, epoch)
    case Some(refusal) => refusal
    case None =>
      var text := if "text" in req.form then req.form["text"] else "";
      var payload := CommandPayload(FormField(req, "user_id"), FormField(req, "channel_id"), Some(text), FormField(req, "trigger_id"));
      Reply(HandleTimesheetCommand(payload))
  }

  /** The payload of the two report commands. */
  function ReportPayload(req: Request): CommandPayload {
    CommandPayload(FormField(req, "user_id"), FormField(req, "channel_id"), None, None)
  }

  /** `POST /slack/commands/timesheetWeekly`. */
  function HandleWeeklyEndpoint(req: Request, settings: Settings, crypto: Crypto, rt: Runtime, epoch: real,
                                store: EntryStore, now: int, cal: Calendar): (r: HttpReply)
    reads store
    ensures VerifySignature(req, settings, crypto, rt, epoch) != Ok(true) ==> r == Guard(req, settings, crypto, rt, epoch).value
    ensures VerifySignature(req, settings, crypto, rt, epoch) == Ok(true) ==>
      (FormField(req, "user_id") != Some(settings.managerId) <==> r == Reply(EphemeralText(NoPermission)))
  {
    match Guard(req, settings, crypto, rt, epoch)
    case Some(refusal) => refusal
    case None => Reply(HandleWeeklyReport(ReportPayload(req), settings.managerId, store, now, cal, rt))
  }

  /** `POST /slack/commands/timesheetMonthly`. */
  function HandleMonthlyEndpoint(req: Request, settings: Settings, crypto: Crypto, rt: Runtime, epoch: real,
                                 store: EntryStore, now: int, cal: Calendar): (r: HttpReply)
    reads store
    requires ConsistentCalendar(cal)
    ensures VerifySignature(req, settings, crypto, rt, epoch) != Ok(true) ==> r == Guard(req, settings, crypto, rt, epoch).value
    ensures VerifySignature(req, settings, crypto, rt, epoch) == Ok(true) ==>
      (FormField(req, "user_id") != Some(settings.managerId) <==> r == Reply(EphemeralText(NoPermission)))
  {
    match Guard(req, settings, crypto, rt, epoch)
    case Some(refusal) => refusal
    case None => Reply(HandleMonthlyReport(ReportPayload(req), settings.managerId, store, now, cal, rt))
  }

  /** A request without a timestamp header makes `int("")` raise ValueError,
      so the four function endpoints answer 500. The interaction endpoint
      answers the same 500 and changes nothing by the first ensures of
      `HandleInteractions`, given the `Guard` value stated here. */
  lemma MissingTimestampIsServerError(req: Request, settings: Settings, crypto: Crypto, rt: Runtime, epoch: real,
                                      store: EntryStore, now: int, cal: Calendar)
    requires PythonParsing(rt) && ConsistentCalendar(cal)
    requires "X-Slack-Request-Timestamp" !in req.headers
    ensures VerifySignature(req, settings, crypto, rt, epoch) == Raise(ValueError)
    ensures Guard(req, settings, crypto, rt, epoch) == Some(ServerError(ValueError))
    ensures HandleEvents(req, settings, crypto, rt, epoch) == ServerError(ValueError)
    ensures HandleTimesheetEndpoint(req, settings, crypto, rt, epoch) == ServerError(ValueError)
    ensures HandleWeeklyEndpoint(req, settings, crypto, rt, epoch, store, now, cal) == ServerError(ValueError)
    ensures HandleMonthlyEndpoint(req, settings, crypto, rt, epoch, store, now, cal) == ServerError(ValueError)
  {
  }

  /** No endpoint answers an unsigned or stale request with anything but a
      403 or, for an unparseable timestamp, a 500. */
  lemma UnverifiedNeverServed(req: Request, settings: Settings, crypto: Crypto, rt: Runtime, epoch: real,
                              store: EntryStore, now: int, cal: Calendar)
    requires VerifySignature(req, settings, crypto, rt, epoch) != Ok(true) && ConsistentCalendar(cal)
    ensures var r := HandleEvents(req, settings, crypto, rt, epoch);
      r == Forbidden || r == ServerError(ValueError)
    ensures var r := HandleTimesheetEndpoint(req, settings, crypto, rt, epoch);
      r == Forbidden || r == ServerError(ValueError)
    ensures var r := HandleWeeklyEndpoint(req, settings, crypto, rt, epoch, store, now, cal);
      r == Forbidden || r == ServerError(ValueError)
    ensures var r := HandleMonthlyEndpoint(req, settings, crypto, rt, epoch, store, now, cal);
      r == Forbidden || r == ServerError(ValueError)
  {
  }
}
