/**
 * The troubleshooting handler revision: validates `detail` explicitly, sends
 * a short test message, and answers every failure with a 500 response
 * instead of throwing.
 */
module DebugNotification {
  import opened Wrappers
  import opened Js
  import opened Text
  import opened Platform
  import opened HealthEvent
  import Notification

  const MissingDetail := "Invalid event structure: missing detail object"
  // Written in two pieces only so that the verifier can check it has no line break.
  const TestNote := "This is a test notification " + "from the updated Lambda function."

  /** The text each placeholder of the test message receives. */
  datatype DebugText = DebugText(environment: string, service: string, status: string, runtime: string, timestamp: string)

  /** The lines of the message template, which opens and closes with a line break. */
  function MessageLines(t: DebugText): seq<string> {
    [ "",
      "\U{1F514} AWS Health Event - " + t.environment,
      "",
      "Service: " + t.service,
      "Status: " + t.status,
      "Runtime: " + t.runtime,
      "Timestamp: " + t.timestamp,
      "",
      TestNote,
      "    " ]
  }

  /**
   * The test message: it opens with a line break, and when the values are
   * single-line its lines are exactly the template's lines.
   */
  function Message(t: DebugText): (m: string)
    ensures |m| >= 1 && m[0] == '\n'
    ensures SingleLine(t) ==> Lines(m) == MessageLines(t)
  {
    var ls := MessageLines(t);
    assert SingleLine(t) ==> Lines(Join(ls)) == ls by {
      if SingleLine(t) {
        MessageLinesHaveNoNewline(t);
        LinesJoin(ls);
      }
    }
    Join(ls)
  }

  predicate SingleLine(t: DebugText) {
    NoNewline(t.environment) && NoNewline(t.service) && NoNewline(t.status)
    && NoNewline(t.runtime) && NoNewline(t.timestamp)
  }

  /** The inverse of Message. */
  function ParseMessage(m: string): Option<DebugText> {
    var ls := Lines(m);
    if |ls| != 10 then None
    else
      var environment :- StripPrefix("\U{1F514} AWS Health Event - ", ls[1]);
      var service :- StripPrefix("Service: ", ls[3]);
      var status :- StripPrefix("Status: ", ls[4]);
      var runtime :- StripPrefix("Runtime: ", ls[5]);
      var timestamp :- StripPrefix("Timestamp: ", ls[6]);
      var t := DebugText(environment, service, status, runtime, timestamp);
      if ls == MessageLines(t) then Some(t) else None
  }

  lemma MessageLinesHaveNoNewline(t: DebugText)
    requires SingleLine(t)
    ensures AllNoNewline(MessageLines(t))
  {
    NoNewlineConcat("\U{1F514} AWS Health Event - ", t.environment);
    NoNewlineConcat("Service: ", t.service);
    NoNewlineConcat("Status: ", t.status);
    NoNewlineConcat("Runtime: ", t.runtime);
    NoNewlineConcat("Timestamp: ", t.timestamp);
    assert NoNewline(TestNote);
  }

  /** Single-line values read back from the message built from them. */
  lemma MessageRoundTrip(t: DebugText)
    requires SingleLine(t)
    ensures ParseMessage(Message(t)) == Some(t)
  {
    MessageLinesHaveNoNewline(t);
    LinesJoin(MessageLines(t));
    StripPrefixOfConcat("\U{1F514} AWS Health Event - ", t.environment);
    StripPrefixOfConcat("Service: ", t.service);
    StripPrefixOfConcat("Status: ", t.status);
    StripPrefixOfConcat("Runtime: ", t.runtime);
    StripPrefixOfConcat("Timestamp: ", t.timestamp);
  }

  lemma ParsedMessageLines(m: string, t: DebugText)
    requires ParseMessage(m) == Some(t)
    ensures Lines(m) == MessageLines(t)
  {
  }

  /** A text is a test message exactly when ParseMessage reads single-line values from it. */
  lemma ParseMessageCharacterization(m: string, t: DebugText)
    ensures ParseMessage(m) == Some(t) <==> SingleLine(t) && Message(t) == m
  {
    if ParseMessage(m) == Some(t) {
      ParseMessageSound(m, t);
    }
    if SingleLine(t) && Message(t) == m {
      MessageRoundTrip(t);
    }
  }

  /** ParseMessage accepts nothing but messages, and only single-line values. */
  lemma ParseMessageSound(m: string, t: DebugText)
    requires ParseMessage(m) == Some(t)
    ensures SingleLine(t) && Message(t) == m
  {
    ParsedMessageLines(m, t);
    JoinLines(m);
    var ls := MessageLines(t);
    assert NoNewline(ls[1]) && NoNewline(ls[3]) && NoNewline(ls[4]) && NoNewline(ls[5]) && NoNewline(ls[6]);
    NoNewlineParts("\U{1F514} AWS Health Event - ", t.environment);
    NoNewlineParts("Service: ", t.service);
    NoNewlineParts("Status: ", t.status);
    NoNewlineParts("Runtime: ", t.runtime);
    NoNewlineParts("Timestamp: ", t.timestamp);
  }

  // ---------------------------------------------------------------- handler

  /** The JSON body of a response, as a record. */
  datatype DebugBody =
    | Delivered(message: string, messageId: string, runtime: string, environment: string,
                service: JsValue, status: JsValue)
    | Failed(error: string, runtime: string, timestamp: string)

  datatype DebugResponse = DebugResponse(statusCode: int, body: DebugBody)

  /** The publish request the invocation made, if any, and the response it returned. */
  datatype DebugInvocation = DebugInvocation(request: Option<PublishRequest>, response: DebugResponse)

  function Failure(error: JsError, host: Host): DebugResponse {
    DebugResponse(500, Failed(error.message, host.version, host.errorTime))
  }

  /**
   * The values the test message of an event with `detail` is built from:
   * the environment, service and status each defaulted as the handler reads
   * them, and the host's runtime and clock reading.
   */
  function TextOf(d: Detail, config: Config, host: Host): (t: DebugText)
    ensures t.environment == EnvironmentName(config)
    ensures d.service in Falsy ==> t.service == Unknown
    ensures d.service !in Falsy ==> t.service == ToText(d.service)
    ensures d.statusCode in Falsy ==> t.status == Unknown
    ensures d.statusCode !in Falsy ==> t.status == ToText(d.statusCode)
    ensures t.service != "" && t.status != ""
    ensures t.runtime == host.version && t.timestamp == host.messageTime
  {
    OrReplacesExactlyFalsy(d.service, Str(Unknown));
    OrReplacesExactlyFalsy(d.statusCode, Str(Unknown));
    DebugText(EnvironmentName(config), ToText(OrUnknown(d.service)), ToText(OrUnknown(d.statusCode)),
              host.version, host.messageTime)
  }

  /**
   * The publish parameters for an event whose `detail` is present: the
   * configured topic, the main revision's subject line, and a message that
   * reads back as its values whenever they are single-line.
   */
  function Compose(d: Detail, config: Config, host: Host): (req: PublishRequest)
    ensures req.topicArn == config.topicArn
    ensures var t := TextOf(d, config, host);
            req.subject == Notification.Subject(t.environment, t.service, t.status)
    ensures SingleLine(TextOf(d, config, host)) ==> ParseMessage(req.message) == Some(TextOf(d, config, host))
  {
    var t := TextOf(d, config, host);
    assert SingleLine(t) ==> ParseMessage(Message(t)) == Some(t) by {
      if SingleLine(t) {
        MessageRoundTrip(t);
      }
    }
    PublishRequest(config.topicArn, Notification.Subject(t.environment, t.service, t.status), Message(t))
  }

  function HandleDebug(event: Event, config: Config, host: Host, publish: PublishResult): (r: DebugInvocation)
    ensures r.request.Some? <==> event.detail.Some?
    ensures event.detail.Some? ==> r.request == Some(Compose(event.detail.value, config, host))
    ensures r.request.Some? ==> r.request.value.topicArn == config.topicArn
    ensures r.response.statusCode == 200 || r.response.statusCode == 500
    ensures r.response.statusCode == 200 <==> r.response.body.Delivered?
    ensures r.response.statusCode == 200 <==> event.detail.Some? && publish.Published?
    ensures event.detail.None? ==> r.response == Failure(JsError(MissingDetail), host)
    ensures event.detail.Some? && publish.PublishFailed? ==> r.response == Failure(publish.error, host)
    ensures r.response.body.Delivered? ==>
              && r.response.body.message == Notification.SentMessage
              && r.response.body.messageId == publish.messageId
              && r.response.body.runtime == host.version
              && r.response.body.environment == EnvironmentName(config)
              && Defaulted(event.detail.value.service, r.response.body.service, Unknown)
              && Defaulted(event.detail.value.statusCode, r.response.body.status, Unknown)
  {
    match event.detail
    case None => DebugInvocation(None, Failure(JsError(MissingDetail), host))
    case Some(d) =>
      var req := Compose(d, config, host);
      match publish
      case Published(id) =>
        OrReplacesExactlyFalsy(d.service, Str(Unknown));
        OrReplacesExactlyFalsy(d.statusCode, Str(Unknown));
        var body := Delivered(Notification.SentMessage, id, host.version, EnvironmentName(config),
                              OrUnknown(d.service), OrUnknown(d.statusCode));
        DebugInvocation(Some(req), DebugResponse(200, body))
      case PublishFailed(e) => DebugInvocation(Some(req), Failure(e, host))
  }

  /**
   * The test message carries the environment, service and status (and the
   * host's runtime and clock) recoverably when they are single-line.
   */
  lemma HandleDebugPublishesFields(event: Event, config: Config, host: Host, publish: PublishResult)
    requires event.detail.Some?
    requires SingleLine(TextOf(event.detail.value, config, host))
    ensures var req := HandleDebug(event, config, host, publish).request.value;
            var t := ParseMessage(req.message);
            t == Some(TextOf(event.detail.value, config, host))
  {
  }
}
