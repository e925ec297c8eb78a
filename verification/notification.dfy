/**
 * The main handler revision: classifies the status, renders the subject and
 * the plain-text body from the extracted fields, publishes once, and either
 * returns a 200 response or rethrows the publish error.
 */
module Notification {
  import opened Wrappers
  import opened Js
  import opened Text
  import opened Platform
  import opened HealthEvent

  // ---------------------------------------------------------------- status

  const Check := "\U{2705}"
  const Warning := "\U{26A0}\U{FE0F}"
  const Bell := "\U{1F514}"

  predicate IsEmoji(e: string) {
    e == Check || e == Warning || e == Bell
  }

  /** Strict equality against 'closed' and 'open', so case matters. */
  function StatusEmoji(status: JsValue): (e: string)
    ensures IsEmoji(e)
    ensures e == Check <==> status == Str("closed")
    ensures e == Warning <==> status == Str("open")
    ensures e == Bell <==> status != Str("closed") && status != Str("open")
  {
    if status == Str("closed") then Check
    else if status == Str("open") then Warning
    else Bell
  }

  /** Only the two exact lower-case spellings get a dedicated emoji. */
  lemma ClassificationIsCaseSensitive()
    ensures StatusEmoji(Str("Closed")) == Bell
    ensures StatusEmoji(Str("CLOSED")) == Bell
    ensures StatusEmoji(Str("Open")) == Bell
    ensures StatusEmoji(Str(Unknown)) == Bell
  {
  }

  // ---------------------------------------------------------------- rendering

  /** The text each template placeholder receives. */
  datatype Rendered = Rendered(
    emoji: string,
    environment: string,
    service: string,
    status: string,
    eventType: string,
    category: string,
    detected: string,
    started: string,
    ended: string,
    description: string,
    eventArn: string,
    region: string,
    account: string)

  /**
   * Which value fills each `${…}` slot of the body: the emoji chosen from the
   * raw status, the environment, and the text of each extracted field, every
   * one of them non-empty when the fields are all truthy.
   */
  function Render(f: Fields, environment: string): (r: Rendered)
    ensures IsEmoji(r.emoji)
    ensures r.emoji == Check <==> f.status == Str("closed")
    ensures r.emoji == Warning <==> f.status == Str("open")
    ensures r.environment == environment
    ensures r.service == ToText(f.service) && r.status == ToText(f.status)
    ensures r.eventType == ToText(f.eventType) && r.category == ToText(f.category)
    ensures r.detected == ToText(f.eventTime) && r.started == ToText(f.startTime)
    ensures r.ended == ToText(f.endTime) && r.description == ToText(f.description)
    ensures r.eventArn == ToText(f.eventArn) && r.region == ToText(f.region)
    ensures r.account == ToText(f.account)
    ensures AllTruthy(f) ==>
              && r.service != "" && r.status != "" && r.eventType != "" && r.category != ""
              && r.detected != "" && r.started != "" && r.ended != "" && r.description != ""
              && r.eventArn != "" && r.region != "" && r.account != ""
  {
    Rendered(
      emoji := StatusEmoji(f.status),
      environment := environment,
      service := ToText(f.service),
      status := ToText(f.status),
      eventType := ToText(f.eventType),
      category := ToText(f.category),
      detected := ToText(f.eventTime),
      started := ToText(f.startTime),
      ended := ToText(f.endTime),
      description := ToText(f.description),
      eventArn := ToText(f.eventArn),
      region := ToText(f.region),
      account := ToText(f.account))
  }

  const RuleSegment := "\U{2501}\U{2501}\U{2501}\U{2501}\U{2501}\U{2501}\U{2501}\U{2501}"

  /** The separator line: 47 heavy horizontal box-drawing characters. */
  const Rule := RuleSegment + RuleSegment + RuleSegment + RuleSegment + RuleSegment + "\U{2501}\U{2501}\U{2501}\U{2501}\U{2501}\U{2501}\U{2501}"

  function Header(emoji: string, environment: string): string {
    emoji + " AWS Health Event - " + environment + " Environment"
  }

  const HeaderLead := " AWS Health Event - "
  const HeaderTail := " Environment"

  /** The body's lines up to and including the Description heading. */
  function Opening(r: Rendered): seq<string> {
    [ Header(r.emoji, r.environment),
      Rule,
      "",
      "\U{1F4CA} Event Summary:",
      "- Service: " + r.service,
      "- Status: " + r.status,
      "- Type: " + r.eventType,
      "- Category: " + r.category,
      "",
      "\U{1F552} Timeline:",
      "- Detected: " + r.detected,
      "- Started: " + r.started,
      "- Ended: " + r.ended,
      "",
      "\U{1F4DD} Description:" ]
  }

  /** The body's lines after the description. */
  function Closing(r: Rendered): seq<string> {
    [ "",
      "\U{1F50D} Details:",
      "- Event ARN: " + r.eventArn,
      "- Region: " + r.region,
      "- Account: " + r.account,
      "",
      Rule,
      "AWS Health Event Monitoring System" ]
  }

  /**
   * The `formattedMessage` template, one template line per element. It opens
   * with the status emoji, and when the values are well formed its lines are
   * the fixed sections, in order, around the description's own lines.
   */
  function Body(r: Rendered): (body: string)
    ensures |r.emoji| <= |body| && body[..|r.emoji|] == r.emoji
    ensures WellFormed(r) ==> Lines(body) == Opening(r) + Lines(r.description) + Closing(r)
  {
    var ls := Opening(r) + [r.description] + Closing(r);
    assert |r.emoji| <= |Join(ls)| && Join(ls)[..|r.emoji|] == r.emoji by {
      JoinStartsWithFirst(ls);
      assert ls[0] == r.emoji + (HeaderLead + r.environment + HeaderTail);
    }
    assert WellFormed(r) ==> Lines(Join(ls)) == Opening(r) + Lines(r.description) + Closing(r) by {
      if WellFormed(r) {
        OpeningHasNoNewline(r);
        ClosingHasNoNewline(r);
        LinesAround(Opening(r), r.description, Closing(r));
      }
    }
    Join(ls)
  }

  /**
   * `${environment} Health Alert: ${service} ${status}`: the environment,
   * the fixed words, the service, one space and the status, in that order.
   */
  function Subject(environment: string, service: string, status: string): (subject: string)
    ensures |subject| == |environment| + 15 + |service| + 1 + |status|
    ensures subject[..|environment|] == environment
    ensures subject[|environment|..|environment| + 15] == " Health Alert: "
    ensures subject[|environment| + 15..|environment| + 15 + |service|] == service
    ensures subject[|subject| - |status| - 1..] == " " + status
  {
    environment + " Health Alert: " + service + " " + status
  }

  // ---------------------------------------------------------------- reading back

  /**
   * Values the body can carry recoverably: a classification emoji and
   * single-line fields; only the description may span several lines.
   */
  predicate WellFormed(r: Rendered) {
    && IsEmoji(r.emoji)
    && NoNewline(r.environment) && NoNewline(r.service) && NoNewline(r.status)
    && NoNewline(r.eventType) && NoNewline(r.category) && NoNewline(r.detected)
    && NoNewline(r.started) && NoNewline(r.ended) && NoNewline(r.eventArn)
    && NoNewline(r.region) && NoNewline(r.account)
  }

  function ParseHeaderWith(emoji: string, line: string): Option<(string, string)> {
    var rest :- StripPrefix(emoji + HeaderLead, line);
    var environment :- StripSuffix(HeaderTail, rest);
    Some((emoji, environment))
  }

  /** The emoji and environment of a header line. */
  function ParseHeader(line: string): Option<(string, string)> {
    var c := ParseHeaderWith(Check, line);
    if c.Some? then c
    else
      var w := ParseHeaderWith(Warning, line);
      if w.Some? then w else ParseHeaderWith(Bell, line)
  }

  /** The values in the placeholder positions of a body's lines, if each line has its label. */
  function Candidate(ls: seq<string>): (r: Option<Rendered>)
    requires |ls| >= 24
    ensures r.Some? ==> r.value.description == Join(ls[15..|ls| - 8])
    ensures r.Some? ==> ParseHeader(ls[0]) == Some((r.value.emoji, r.value.environment))
  {
    var n := |ls|;
    var header :- ParseHeader(ls[0]);
    var service :- StripPrefix("- Service: ", ls[4]);
    var status :- StripPrefix("- Status: ", ls[5]);
    var eventType :- StripPrefix("- Type: ", ls[6]);
    var category :- StripPrefix("- Category: ", ls[7]);
    var detected :- StripPrefix("- Detected: ", ls[10]);
    var started :- StripPrefix("- Started: ", ls[11]);
    var ended :- StripPrefix("- Ended: ", ls[12]);
    var eventArn :- StripPrefix("- Event ARN: ", ls[n - 6]);
    var region :- StripPrefix("- Region: ", ls[n - 5]);
    var account :- StripPrefix("- Account: ", ls[n - 4]);
    Some(Rendered(header.0, header.1, service, status, eventType, category,
                  detected, started, ended, Join(ls[15..n - 8]), eventArn, region, account))
  }

  /** The inverse of Body: the placeholder values of a body, if it is one. */
  function ParseBody(body: string): Option<Rendered> {
    var ls := Lines(body);
    if |ls| < 24 then None
    else
      var r :- Candidate(ls);
      if ls[..15] == Opening(r) && ls[|ls| - 8..] == Closing(r) then Some(r) else None
  }

  lemma ParseHeaderRoundTrip(emoji: string, environment: string)
    requires IsEmoji(emoji)
    ensures ParseHeader(Header(emoji, environment)) == Some((emoji, environment))
  {
    var line := Header(emoji, environment);
    assert line == (emoji + HeaderLead) + (environment + HeaderTail);
    StripPrefixOfConcat(emoji + HeaderLead, environment + HeaderTail);
    StripSuffixOfConcat(environment, HeaderTail);
    if emoji != Check {
      assert line[0] != Check[0];
    }
    if emoji == Bell {
      assert line[0] != Warning[0];
    }
  }

  lemma RuleHasNoNewline()
    ensures NoNewline(Rule)
  {
  }

  lemma OpeningHasNoNewline(r: Rendered)
    requires WellFormed(r)
    ensures AllNoNewline(Opening(r))
  {
    NoNewlineConcat(r.emoji + HeaderLead, r.environment);
    NoNewlineConcat(r.emoji + HeaderLead + r.environment, HeaderTail);
    RuleHasNoNewline();
    NoNewlineConcat("- Service: ", r.service);
    NoNewlineConcat("- Status: ", r.status);
    NoNewlineConcat("- Type: ", r.eventType);
    NoNewlineConcat("- Category: ", r.category);
    NoNewlineConcat("- Detected: ", r.detected);
    NoNewlineConcat("- Started: ", r.started);
    NoNewlineConcat("- Ended: ", r.ended);
    assert NoNewline("\U{1F4CA} Event Summary:");
    assert NoNewline("\U{1F552} Timeline:");
    assert NoNewline("\U{1F4DD} Description:");
  }

  lemma ClosingHasNoNewline(r: Rendered)
    requires WellFormed(r)
    ensures AllNoNewline(Closing(r))
  {
    RuleHasNoNewline();
    NoNewlineConcat("- Event ARN: ", r.eventArn);
    NoNewlineConcat("- Region: ", r.region);
    NoNewlineConcat("- Account: ", r.account);
    assert NoNewline("\U{1F50D} Details:");
    assert NoNewline("AWS Health Event Monitoring System");
  }

  /** Every well-formed set of values reads back from the body rendered from it. */
  lemma BodyRoundTrip(r: Rendered)
    requires WellFormed(r)
    ensures ParseBody(Body(r)) == Some(r)
  {
    var ls := Lines(Body(r));
    var n := |ls|;
    assert n == 23 + |Lines(r.description)|;
    assert ls[..15] == Opening(r);
    assert ls[n - 8..] == Closing(r);
    CandidateOfLayout(ls, r);
  }

  /** Candidate reads the values back from lines laid out as Body lays them out. */
  lemma CandidateOfLayout(ls: seq<string>, r: Rendered)
    requires WellFormed(r)
    requires |ls| >= 24 && ls[..15] == Opening(r) && ls[|ls| - 8..] == Closing(r)
    requires ls[15..|ls| - 8] == Lines(r.description)
    ensures Candidate(ls) == Some(r)
  {
    var n := |ls|;
    JoinLines(r.description);
    ParseHeaderRoundTrip(r.emoji, r.environment);
    assert ls[0] == Opening(r)[0];
    StripPrefixOfConcat("- Service: ", r.service);
    StripPrefixOfConcat("- Status: ", r.status);
    StripPrefixOfConcat("- Type: ", r.eventType);
    StripPrefixOfConcat("- Category: ", r.category);
    StripPrefixOfConcat("- Detected: ", r.detected);
    StripPrefixOfConcat("- Started: ", r.started);
    StripPrefixOfConcat("- Ended: ", r.ended);
    StripPrefixOfConcat("- Event ARN: ", r.eventArn);
    StripPrefixOfConcat("- Region: ", r.region);
    StripPrefixOfConcat("- Account: ", r.account);
    assert ls[4] == Opening(r)[4] && ls[5] == Opening(r)[5] && ls[6] == Opening(r)[6];
    assert ls[7] == Opening(r)[7] && ls[10] == Opening(r)[10] && ls[11] == Opening(r)[11];
    assert ls[12] == Opening(r)[12];
    assert ls[n - 6] == Closing(r)[2] && ls[n - 5] == Closing(r)[3] && ls[n - 4] == Closing(r)[4];
  }

  /** The lines ParseBody reads a body from. */
  lemma ParsedLines(body: string, r: Rendered)
    requires ParseBody(body) == Some(r)
    ensures var ls := Lines(body);
            && |ls| >= 24
            && ls == Opening(r) + ls[15..|ls| - 8] + Closing(r)
            && r.description == Join(ls[15..|ls| - 8])
            && ParseHeader(ls[0]) == Some((r.emoji, r.environment))
  {
    var ls := Lines(body);
    var n := |ls|;
    var c := Candidate(ls);
    assert c == Some(r);
    assert ls == ls[..15] + ls[15..n - 8] + ls[n - 8..];
  }

  /** ParseBody accepts nothing but rendered bodies. */
  lemma ParseBodySound(body: string, r: Rendered)
    requires ParseBody(body) == Some(r)
    ensures WellFormed(r) && Body(r) == body
  {
    ParsedLines(body, r);
    var ls := Lines(body);
    var mid := ls[15..|ls| - 8];
    JoinAround(Opening(r), mid, Closing(r));
    JoinLines(body);
    assert Body(r) == Join(Opening(r) + [Join(mid)] + Closing(r));
    ParsedFieldsWellFormed(ls, r);
  }

  lemma ParsedFieldsWellFormed(ls: seq<string>, r: Rendered)
    requires |ls| >= 24 && AllNoNewline(ls)
    requires ls == Opening(r) + ls[15..|ls| - 8] + Closing(r)
    requires ParseHeader(ls[0]) == Some((r.emoji, r.environment))
    ensures WellFormed(r)
  {
    var n := |ls|;
    assert ls[0] == Header(r.emoji, r.environment);
    HeaderParts(ls[0]);
    assert NoNewline(ls[4]) && ls[4] == "- Service: " + r.service;
    assert NoNewline(ls[5]) && ls[5] == "- Status: " + r.status;
    assert NoNewline(ls[6]) && ls[6] == "- Type: " + r.eventType;
    assert NoNewline(ls[7]) && ls[7] == "- Category: " + r.category;
    assert NoNewline(ls[10]) && ls[10] == "- Detected: " + r.detected;
    assert NoNewline(ls[11]) && ls[11] == "- Started: " + r.started;
    assert NoNewline(ls[12]) && ls[12] == "- Ended: " + r.ended;
    assert NoNewline(ls[n - 6]) && ls[n - 6] == "- Event ARN: " + r.eventArn;
    assert NoNewline(ls[n - 5]) && ls[n - 5] == "- Region: " + r.region;
    assert NoNewline(ls[n - 4]) && ls[n - 4] == "- Account: " + r.account;
    NoNewlineParts("- Service: ", r.service);
    NoNewlineParts("- Status: ", r.status);
    NoNewlineParts("- Type: ", r.eventType);
    NoNewlineParts("- Category: ", r.category);
    NoNewlineParts("- Detected: ", r.detected);
    NoNewlineParts("- Started: ", r.started);
    NoNewlineParts("- Ended: ", r.ended);
    NoNewlineParts("- Event ARN: ", r.eventArn);
    NoNewlineParts("- Region: ", r.region);
    NoNewlineParts("- Account: ", r.account);
  }

  /** A header line that parses names one of the three emojis and a newline-free environment. */
  lemma HeaderParts(line: string)
    requires ParseHeader(line).Some? && NoNewline(line)
    ensures var (emoji, environment) := ParseHeader(line).value;
            IsEmoji(emoji) && NoNewline(environment) && line == Header(emoji, environment)
  {
    var (emoji, environment) := ParseHeader(line).value;
    var rest := StripPrefix(emoji + HeaderLead, line).value;
    NoNewlineParts(emoji + HeaderLead, rest);
    NoNewlineParts(environment, HeaderTail);
  }

  /** A body is exactly the rendering of the values ParseBody reads from it. */
  lemma ParseBodyCharacterization(body: string, r: Rendered)
    ensures ParseBody(body) == Some(r) <==> WellFormed(r) && Body(r) == body
  {
    if ParseBody(body) == Some(r) {
      ParseBodySound(body, r);
    }
    if WellFormed(r) && Body(r) == body {
      BodyRoundTrip(r);
    }
  }

  /** The subject's service and status, given the environment, when the status is one word. */
  function ParseSubject(environment: string, subject: string): Option<(string, string)> {
    var rest :- StripPrefix(environment + " Health Alert: ", subject);
    if ' ' in rest then
      var i := LastIndexOf(rest, ' ');
      Some((rest[..i], rest[i + 1..]))
    else
      None
  }

  /** The subject carries environment, service and status recoverably. */
  lemma SubjectRoundTrip(environment: string, service: string, status: string)
    requires ' ' !in status
    ensures ParseSubject(environment, Subject(environment, service, status)) == Some((service, status))
  {
    var p := environment + " Health Alert: ";
    var rest := service + " " + status;
    assert Subject(environment, service, status) == p + rest;
    StripPrefixOfConcat(p, rest);
    assert rest[|service|] == ' ';
    var i := LastIndexOf(rest, ' ');
    assert i == |service|;
    assert rest[..i] == service;
    assert rest[i + 1..] == status;
  }

  // ---------------------------------------------------------------- handler

  const SentMessage := "Notification sent successfully"

  datatype SentBody = SentBody(message: string, messageId: string)
  datatype Response = Response(statusCode: int, body: SentBody)

  /**
   * What escapes the handler: the TypeError from reading a field of a
   * missing `detail`, or the publish error, rethrown unchanged.
   */
  datatype Thrown = DetailUnreadable | Rethrown(error: JsError)

  datatype Outcome = Returned(response: Response) | Threw(thrown: Thrown)

  /** The publish request the invocation made, if any, and how it ended. */
  datatype Invocation = Invocation(request: Option<PublishRequest>, outcome: Outcome)

  /**
   * The publish parameters for an event whose `detail` is present: the
   * configured topic, and a subject and body that read back as the extracted
   * values whenever those are readable.
   */
  function Compose(d: Detail, event: Event, config: Config): (req: PublishRequest)
    ensures req.topicArn == config.topicArn
    ensures var r := Render(Extract(d, event), EnvironmentName(config));
            req.subject == Subject(r.environment, r.service, r.status)
    ensures var r := Render(Extract(d, event), EnvironmentName(config));
            WellFormed(r) ==> ParseBody(req.message) == Some(r)
    ensures var r := Render(Extract(d, event), EnvironmentName(config));
            ' ' !in r.status ==> ParseSubject(r.environment, req.subject) == Some((r.service, r.status))
  {
    var environment := EnvironmentName(config);
    var r := Render(Extract(d, event), environment);
    assert WellFormed(r) ==> ParseBody(Body(r)) == Some(r) by {
      if WellFormed(r) {
        BodyRoundTrip(r);
      }
    }
    assert ' ' !in r.status ==> ParseSubject(environment, Subject(environment, r.service, r.status)) == Some((r.service, r.status)) by {
      if ' ' !in r.status {
        SubjectRoundTrip(environment, r.service, r.status);
      }
    }
    PublishRequest(config.topicArn, Subject(environment, r.service, r.status), Body(r))
  }

  function Handle(event: Event, config: Config, publish: PublishResult): (r: Invocation)
    ensures r.request.Some? <==> event.detail.Some?
    ensures event.detail.Some? ==> r.request == Some(Compose(event.detail.value, event, config))
    ensures event.detail.None? ==> r.outcome == Threw(DetailUnreadable)
    ensures r.request.Some? ==> r.request.value.topicArn == config.topicArn
    ensures r.outcome.Returned? <==> event.detail.Some? && publish.Published?
    ensures r.outcome.Returned? ==> r.outcome.response == Response(200, SentBody(SentMessage, publish.messageId))
    ensures event.detail.Some? && publish.PublishFailed? ==> r.outcome == Threw(Rethrown(publish.error))
  {
    match event.detail
    case None => Invocation(None, Threw(DetailUnreadable))
    case Some(d) =>
      var req := Compose(d, event, config);
      match publish
      case Published(id) => Invocation(Some(req), Returned(Response(200, SentBody(SentMessage, id))))
      case PublishFailed(e) => Invocation(Some(req), Threw(Rethrown(e)))
  }

  /** Without `detail` nothing is published, so the publish outcome cannot matter. */
  lemma MissingDetailIgnoresPublish(event: Event, config: Config, p: PublishResult, q: PublishResult)
    requires event.detail.None?
    ensures Handle(event, config, p) == Handle(event, config, q)
    ensures Handle(event, config, p).request.None?
  {
  }

  /**
   * When the rendered values are well formed and the status is one word, the
   * published notification carries every extracted value: the body reads back
   * as the rendering of the extracted fields, and the subject as the
   * environment, service and status.
   */
  lemma HandlePublishesExtractedFields(event: Event, config: Config, publish: PublishResult)
    requires event.detail.Some?
    requires WellFormed(Render(Extract(event.detail.value, event), EnvironmentName(config)))
    requires ' ' !in ToText(Extract(event.detail.value, event).status)
    ensures var req := Handle(event, config, publish).request.value;
            var f := Extract(event.detail.value, event);
            var environment := EnvironmentName(config);
            && ParseBody(req.message) == Some(Render(f, environment))
            && ParseSubject(environment, req.subject) == Some((ToText(f.service), ToText(f.status)))
  {
  }

  /** The emoji leading the published body identifies the raw status. */
  lemma PublishedEmojiReflectsStatus(event: Event, config: Config, publish: PublishResult)
    requires event.detail.Some?
    ensures var body := Handle(event, config, publish).request.value.message;
            var status := event.detail.value.statusCode;
            && (|Check| <= |body| && body[..|Check|] == Check <==> status == Str("closed"))
            && (|Warning| <= |body| && body[..|Warning|] == Warning <==> status == Str("open"))
  {
    var r := Render(Extract(event.detail.value, event), EnvironmentName(config));
    var body := Body(r);
    assert body[0] == r.emoji[0];
    assert Check[0] != Warning[0] && Check[0] != Bell[0] && Warning[0] != Bell[0];
  }
}
