/** Concrete invocations of the main revision, read back through the body parser. */
module Scenarios {
  import opened Wrappers
  import opened Js
  import opened Platform
  import opened HealthEvent
  import opened Text
  import opened Notification

  const Reboot := Event(
    Some(Detail(
      service := Str("EC2"),
      statusCode := Str("open"),
      eventTypeCode := Str("AWS_EC2_INSTANCE_REBOOT"),
      eventTypeCategory := Str("issue"),
      eventDescription := Some([DescriptionEntry(Str("Instance reboot scheduled"))]),
      eventArn := Str("arn:aws:health:us-east-1::event/EC2/1"),
      startTime := Str("2024-01-01T00:00:00Z"),
      endTime := Null)),
    time := Str("2024-01-01T00:00:00Z"),
    region := Str("us-east-1"),
    account := Str("123456789012"))

  /**
   * An open EC2 event with a null end time: the subject names the
   * environment, EC2 and the status as given (not upper-cased), the body
   * opens with the warning emoji and its Timeline shows the end time as
   * "Unknown".
   */
  lemma RebootEvent(environment: string, publish: PublishResult)
    requires environment != "" && NoNewline(environment)
    ensures var req := Handle(Reboot, Config(Some(environment), None), publish).request.value;
            && req.subject == environment + " Health Alert: EC2 open"
            && ParseBody(req.message).Some?
            && ParseBody(req.message).value.environment == environment
            && ParseBody(req.message).value.emoji == Warning
            && ParseBody(req.message).value.ended == Unknown
            && ParseBody(req.message).value.description == "Instance reboot scheduled"
  {
    var r := RebootRendered(environment);
    RebootRequest(environment, publish);
    RebootSubject(environment);
    RebootWellFormed(environment);
    BodyRoundTrip(r);
  }

  lemma RebootRequest(environment: string, publish: PublishResult)
    requires environment != ""
    ensures var req := Handle(Reboot, Config(Some(environment), None), publish).request.value;
            var r := Render(Extract(Reboot.detail.value, Reboot), environment);
            req.message == Body(r) && req.subject == Subject(environment, "EC2", "open")
  {
    var _ := RebootRendered(environment);
  }

  lemma RebootSubject(environment: string)
    ensures Subject(environment, "EC2", "open") == environment + " Health Alert: EC2 open"
  {
    assert " Health Alert: " + "EC2" + " " + "open" == " Health Alert: EC2 open";
    assert Subject(environment, "EC2", "open") == environment + (" Health Alert: " + "EC2" + " " + "open");
  }

  lemma RebootWellFormed(environment: string)
    requires environment != "" && NoNewline(environment)
    ensures WellFormed(Render(Extract(Reboot.detail.value, Reboot), environment))
  {
    var _ := RebootRendered(environment);
    RebootTextWellFormed(environment);
  }

  lemma RebootTextWellFormed(environment: string)
    requires NoNewline(environment)
    ensures WellFormed(RebootText(environment))
  {
    RebootLiteralsHaveNoNewline();
  }

  lemma RebootLiteralsHaveNoNewline()
    ensures NoNewline("AWS_EC2_INSTANCE_REBOOT") && NoNewline("2024-01-01T00:00:00Z")
    ensures NoNewline("arn:aws:health:us-east-1::event/EC2/1") && NoNewline("123456789012")
  {
  }

  /** The placeholder values of the reboot event. */
  function RebootText(environment: string): Rendered {
    Rendered(Warning, environment, "EC2", "open", "AWS_EC2_INSTANCE_REBOOT", "issue",
             "2024-01-01T00:00:00Z", "2024-01-01T00:00:00Z", Unknown, "Instance reboot scheduled",
             "arn:aws:health:us-east-1::event/EC2/1", "us-east-1", "123456789012")
  }

  /** The placeholder values of the reboot event in the given environment. */
  lemma RebootRendered(environment: string) returns (r: Rendered)
    requires environment != ""
    ensures r == Render(Extract(Reboot.detail.value, Reboot), environment)
    ensures r == RebootText(environment)
  {
    RebootExtracted();
    r := Render(RebootFields, environment);
  }

  const RebootFields := Fields(
    Str("EC2"), Str("open"), Str("AWS_EC2_INSTANCE_REBOOT"), Str("issue"), Str("Instance reboot scheduled"),
    Str("arn:aws:health:us-east-1::event/EC2/1"), Str("2024-01-01T00:00:00Z"), Str(Unknown),
    Str("2024-01-01T00:00:00Z"), Str("us-east-1"), Str("123456789012"))

  /** The null end time is the only field replaced by its placeholder. */
  lemma RebootExtracted()
    ensures Extract(Reboot.detail.value, Reboot) == RebootFields
  {
  }

  /** With an empty `detail`, every field shows its placeholder and the notification is still sent. */
  lemma EmptyDetail(config: Config, publish: PublishResult)
    ensures var event := Event(Some(Detail(Undefined, Undefined, Undefined, Undefined, None, Undefined, Undefined, Undefined)),
                               Undefined, Undefined, Undefined);
            var inv := Handle(event, config, publish);
            && inv.request.Some?
            && (publish.Published? ==> inv.outcome.Returned?)
            && Extract(event.detail.value, event)
               == Fields(Str(Unknown), Str(Unknown), Str(Unknown), Str(Unknown), Str(NoDescription),
                         Str(Unknown), Str(Unknown), Str(Unknown), Str(Unknown), Str(Unknown), Str(Unknown))
  {
  }
}
