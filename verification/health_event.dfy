/**
 * The AWS Health event as EventBridge delivers it, and the extraction of its
 * fields with the placeholder each handler substitutes for a missing or
 * falsy value.
 */
module HealthEvent {
  import opened Wrappers
  import opened Js

  /**
   * One element of `detail.eventDescription`. An element that is `null`, or
   * has no `latestDescription`, is `DescriptionEntry(Undefined)`.
   */
  datatype DescriptionEntry = DescriptionEntry(latestDescription: JsValue)

  /** `event.detail`. A missing list of descriptions is `None`. */
  datatype Detail = Detail(
    service: JsValue,
    statusCode: JsValue,
    eventTypeCode: JsValue,
    eventTypeCategory: JsValue,
    eventDescription: Option<seq<DescriptionEntry>>,
    eventArn: JsValue,
    startTime: JsValue,
    endTime: JsValue)

  /** The EventBridge envelope. A `detail` that is undefined or null is `None`. */
  datatype Event = Event(detail: Option<Detail>, time: JsValue, region: JsValue, account: JsValue)

  /** The values the main revision reads from an event, after substitution. */
  datatype Fields = Fields(
    service: JsValue,
    status: JsValue,
    eventType: JsValue,
    category: JsValue,
    description: JsValue,
    eventArn: JsValue,
    startTime: JsValue,
    endTime: JsValue,
    eventTime: JsValue,
    region: JsValue,
    account: JsValue)

  const Unknown := "Unknown"
  const NoDescription := "No description available"

  /** `out` is what `raw || placeholder` yields, judged against the list of falsy values. */
  predicate Defaulted(raw: JsValue, out: JsValue, placeholder: string) {
    if raw in Falsy then out == Str(placeholder) else out == raw
  }

  /** `field || 'Unknown'`. */
  function OrUnknown(v: JsValue): JsValue {
    Or(v, Str(Unknown))
  }

  /**
   * `detail.eventDescription?.[0]?.latestDescription`: undefined when the list
   * is missing or empty, otherwise the first entry's value.
   */
  function FirstDescription(list: Option<seq<DescriptionEntry>>): (v: JsValue)
    ensures list.None? || list == Some([]) ==> v == Undefined
    ensures list.Some? && |list.value| > 0 ==> v == list.value[0].latestDescription
  {
    match list
    case None => Undefined
    case Some(entries) => if |entries| == 0 then Undefined else entries[0].latestDescription
  }

  predicate AllTruthy(f: Fields) {
    && Truthy(f.service) && Truthy(f.status) && Truthy(f.eventType) && Truthy(f.category)
    && Truthy(f.description) && Truthy(f.eventArn) && Truthy(f.startTime) && Truthy(f.endTime)
    && Truthy(f.eventTime) && Truthy(f.region) && Truthy(f.account)
  }

  /** Reads every field of an event whose `detail` is present. */
  function Extract(d: Detail, event: Event): (f: Fields)
    ensures Defaulted(d.service, f.service, Unknown)
    ensures Defaulted(d.statusCode, f.status, Unknown)
    ensures Defaulted(d.eventTypeCode, f.eventType, Unknown)
    ensures Defaulted(d.eventTypeCategory, f.category, Unknown)
    ensures Defaulted(d.eventArn, f.eventArn, Unknown)
    ensures Defaulted(d.startTime, f.startTime, Unknown)
    ensures Defaulted(d.endTime, f.endTime, Unknown)
    ensures Defaulted(event.time, f.eventTime, Unknown)
    ensures Defaulted(event.region, f.region, Unknown)
    ensures Defaulted(event.account, f.account, Unknown)
    ensures d.eventDescription.None? || d.eventDescription == Some([]) ==> f.description == Str(NoDescription)
    ensures d.eventDescription.Some? && |d.eventDescription.value| > 0 ==>
              Defaulted(d.eventDescription.value[0].latestDescription, f.description, NoDescription)
    ensures AllTruthy(f)
  {
    OrReplacesExactlyFalsy(d.service, Str(Unknown));
    OrReplacesExactlyFalsy(d.statusCode, Str(Unknown));
    OrReplacesExactlyFalsy(d.eventTypeCode, Str(Unknown));
    OrReplacesExactlyFalsy(d.eventTypeCategory, Str(Unknown));
    OrReplacesExactlyFalsy(d.eventArn, Str(Unknown));
    OrReplacesExactlyFalsy(d.startTime, Str(Unknown));
    OrReplacesExactlyFalsy(d.endTime, Str(Unknown));
    OrReplacesExactlyFalsy(event.time, Str(Unknown));
    OrReplacesExactlyFalsy(event.region, Str(Unknown));
    OrReplacesExactlyFalsy(event.account, Str(Unknown));
    OrReplacesExactlyFalsy(FirstDescription(d.eventDescription), Str(NoDescription));
    Fields(
      service := OrUnknown(d.service),
      status := OrUnknown(d.statusCode),
      eventType := OrUnknown(d.eventTypeCode),
      category := OrUnknown(d.eventTypeCategory),
      description := Or(FirstDescription(d.eventDescription), Str(NoDescription)),
      eventArn := OrUnknown(d.eventArn),
      startTime := OrUnknown(d.startTime),
      endTime := OrUnknown(d.endTime),
      eventTime := OrUnknown(event.time),
      region := OrUnknown(event.region),
      account := OrUnknown(event.account))
  }

  /** An event carrying exactly the given values, each where Extract reads it. */
  function EventOf(f: Fields): Event {
    Event(
      Some(Detail(f.service, f.status, f.eventType, f.category, Some([DescriptionEntry(f.description)]),
                  f.eventArn, f.startTime, f.endTime)),
      f.eventTime, f.region, f.account)
  }

  /** Extraction is idempotent: extracting again from what it produced changes nothing. */
  lemma ExtractIdempotent(d: Detail, event: Event)
    ensures var f := Extract(d, event);
            Extract(EventOf(f).detail.value, EventOf(f)) == f
  {
  }
}
