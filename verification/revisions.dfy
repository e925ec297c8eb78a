/**
 * How the two handler revisions relate: they publish under the same
 * condition with the same subject and report the same message id. They send
 * different message texts, return different 200 bodies, and differ in how a
 * failure reaches the caller.
 */
module Revisions {
  import opened Platform
  import opened HealthEvent
  import Notification
  import DebugNotification

  /** Both revisions render the subject line from the same values. */
  lemma SameSubject(event: Event, config: Config, host: Host, publish: PublishResult)
    requires event.detail.Some?
    ensures Notification.Handle(event, config, publish).request.value.subject
         == DebugNotification.HandleDebug(event, config, host, publish).request.value.subject
  {
  }

  /**
   * A thrown failure of the main revision is a 500 response of the debug
   * revision: for a publish error it carries that error's message, and for a
   * missing `detail` (a TypeError in the main revision) it carries the debug
   * revision's own validation message. A 200 of one is a 200 of the other
   * with the same message id.
   */
  lemma FailuresBecomeResponses(event: Event, config: Config, host: Host, publish: PublishResult)
    ensures var main := Notification.Handle(event, config, publish);
            var debug := DebugNotification.HandleDebug(event, config, host, publish);
            && (main.request.Some? <==> debug.request.Some?)
            && (main.outcome.Returned? <==> debug.response.statusCode == 200)
            && (main.outcome.Returned? ==>
                  main.outcome.response.statusCode == 200
                  && main.outcome.response.body.messageId == debug.response.body.messageId)
            && (main.outcome.Threw? ==> debug.response.statusCode == 500)
            && (main.outcome == Notification.Threw(Notification.DetailUnreadable) ==>
                  debug.response.body.error == DebugNotification.MissingDetail)
            && (main.outcome.Threw? && main.outcome.thrown.Rethrown? ==>
                  debug.response.body.error == main.outcome.thrown.error.message)
            && (debug.response.body.Delivered? ==>
                  var f := Extract(event.detail.value, event);
                  debug.response.body.service == f.service && debug.response.body.status == f.status)
  {
  }
}
