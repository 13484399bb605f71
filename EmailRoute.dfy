/**
 * POST /email of the Node backend: the checks on the request body, the
 * choice of template, and the status the handler answers with. Sending is
 * outside the model: whether the mail server accepts the message is a
 * parameter.
 */
module EmailRoute {
  import opened Base
  import opened EmailTemplates

  /** The request body `{ type, data, to }`; any field may be missing. */
  datatype EmailRequest = EmailRequest(to: Option<string>, kind: Option<string>, data: Option<ReminderData>)

  datatype Email = Email(to: string, subject: string, html: string)

  /** The handler's answer; `sent` is the message handed to the mail server, if any. */
  datatype Reply = Reply(status: nat, message: string, sent: Option<Email>)

  /** The message one of the two reminder templates produces. */
  function Compose(to: string, kind: string, data: ReminderData, formatDate: Option<string> -> string): (r: Option<Email>)
    ensures r.Some? <==> kind == "event" || kind == "task"
    ensures r.Some? ==> r.value.to == to
    ensures kind == "event" ==> r.value.subject == EventSubject(data)
    ensures kind == "task" ==> r.value.subject == TaskSubject(data)
  {
    if kind == "event" then Some(Email(to, EventSubject(data), Html(EventSections(data, formatDate))))
    else if kind == "task" then Some(Email(to, TaskSubject(data), Html(TaskSections(data, formatDate))))
    else None
  }

  /**
   * The handler. `delivered` says whether the mail server accepts the
   * message; a rejection surfaces as the handler's catch branch.
   */
  function HandleEmail(req: EmailRequest, formatDate: Option<string> -> string, delivered: bool): (r: Reply)
    ensures !Truthy(req.to) ==> r == Reply(400, "Email recipient is required", None)
    ensures Truthy(req.to) && (!Truthy(req.kind) || req.data.None?) ==>
      r == Reply(400, "Notification type and data are required", None)
    ensures r.status == 200 <==>
      Truthy(req.to) && Truthy(req.kind) && req.data.Some? && req.kind.value in {"event", "task"} && delivered
    ensures r.status == 200 ==> r.message == "Email sent successfully"
    ensures r.status == 500 <==>
      Truthy(req.to) && Truthy(req.kind) && req.data.Some? && req.kind.value in {"event", "task"} && !delivered
    ensures r.status == 500 ==> r.message == "Failed to send email notification"
    ensures Truthy(req.to) && Truthy(req.kind) && req.data.Some? && req.kind.value !in {"event", "task"} ==>
      r == Reply(400, "Invalid notification type", None)
    ensures r.sent.Some? <==> r.status == 200
    ensures r.sent.Some? ==> r.sent.value.to == req.to.value
    ensures r.status in {200, 400, 500}
  {
    if !Truthy(req.to) then Reply(400, "Email recipient is required", None)
    else if !Truthy(req.kind) || req.data.None? then Reply(400, "Notification type and data are required", None)
    else match Compose(req.to.value, req.kind.value, req.data.value, formatDate)
      case None => Reply(400, "Invalid notification type", None)
      case Some(email) =>
        if delivered then Reply(200, "Email sent successfully", Some(email))
        else Reply(500, "Failed to send email notification", None)
  }

  /**
   * An accepted event request sends the event template and an accepted task
   * request the task template, to the requested recipient.
   */
  lemma DispatchByType(req: EmailRequest, formatDate: Option<string> -> string)
    requires HandleEmail(req, formatDate, true).status == 200
    ensures var email := HandleEmail(req, formatDate, true).sent.value;
      var data := req.data.value;
      && (req.kind.value == "event" ==>
           email.subject == EventSubject(data) && email.html == Html(EventSections(data, formatDate)))
      && (req.kind.value == "task" ==>
           email.subject == TaskSubject(data) && email.html == Html(TaskSections(data, formatDate)))
  {
  }

  /** The outcome of the send matters only once the request has passed every check. */
  lemma RejectionsIgnoreDelivery(req: EmailRequest, formatDate: Option<string> -> string)
    requires HandleEmail(req, formatDate, true).status == 400
    ensures HandleEmail(req, formatDate, false) == HandleEmail(req, formatDate, true)
  {
  }
}
