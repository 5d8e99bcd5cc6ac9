/**
 * `POST /api/notify/statusUpdate` (src/app/api/notify/statusUpdate/route.ts):
 * after a status change, mail the ticket's creator unless the creator made
 * the change. A guard ladder answers first; past it there is exactly one
 * send and one log entry.
 *
 * The ticket and user collections are maps, `notificationLogs` a sequence,
 * the clock `now`, `sendEmail` the oracle `send`, and the deadline's
 * `toLocaleDateString('ja-JP')` the parameter `localeDate`.
 */
module StatusUpdate {
  import opened Wrappers
  import opened Text
  import opened Utils
  import opened Types
  import opened Tickets
  import opened NotificationService

  /** The JSON body `{ ticketId, newStatus, updatedBy, comment }`; any field may be missing. */
  datatype Request = Request(
    ticketId: Option<string>, newStatus: Option<string>, updatedBy: Option<string>, comment: Option<string>)

  /** JavaScript truthiness of an optional string: present and not empty. */
  predicate Truthy(s: Option<string>)
  {
    s.Some? && s.value != ""
  }

  predicate HasRequiredFields(req: Request)
  {
    Truthy(req.ticketId) && Truthy(req.newStatus) && Truthy(req.updatedBy)
  }

  /** The HTTP status and JSON body of the answer. */
  datatype Reply = Reply(httpStatus: nat, success: bool, message: Option<string>, error: Option<string>)

  const MissingFields: string := "Missing required fields"
  const TicketNotFound: string := "Ticket not found"
  const NoNotificationNeeded: string := "No notification needed - updater is the creator"
  const CreatorNotFound: string := "Creator user not found"
  const DefaultUpdaterName: string := "担当者"
  const StatusUpdateType: string := "status_update"

  // ------------------------------------------------------------------ labels

  /** `TICKET_STATUS_LABELS[newStatus] || newStatus`. */
  function StatusLabelText(newStatus: string): string
  {
    StatusLabelLookup(newStatus).GetOr(newStatus)
  }

  /** `TICKET_TYPE_LABELS[type] || type`. */
  function TypeLabelText(ticketType: string): string
  {
    TypeLabelLookup(ticketType).GetOr(ticketType)
  }

  /** `updaterName`: the updater's display name, or `担当者` when the user or the name is missing. */
  function UpdaterName(users: map<string, User>, updatedBy: string): string
  {
    if updatedBy in users && users[updatedBy].displayName != "" then users[updatedBy].displayName
    else DefaultUpdaterName
  }

  /**
   * A known status shows its label and an unknown one its raw value; a
   * stored type always has a label; the updater always gets a non-empty
   * name, `担当者` unless a display name is on record.
   */
  lemma LabelsFallBack(newStatus: string, t: TicketType, users: map<string, User>, updatedBy: string)
    ensures forall s :: ParseStatus(newStatus) == Some(s) ==> StatusLabelText(newStatus) == StatusLabel(s)
    ensures ParseStatus(newStatus) == None ==> StatusLabelText(newStatus) == newStatus
    ensures TypeLabelText(TypeName(t)) == TypeLabel(t)
    ensures UpdaterName(users, updatedBy) != ""
    ensures (updatedBy !in users || users[updatedBy].displayName == "") ==> UpdaterName(users, updatedBy) == DefaultUpdaterName
  {
    forall s | ParseStatus(newStatus) == Some(s) ensures StatusLabelText(newStatus) == StatusLabel(s) {
      NamesRoundTrip(Admin, s, t, newStatus);
    }
    NamesRoundTrip(Admin, Completed, t, newStatus);
  }

  // ------------------------------------------------------------------- mail

  /** What the templates fill in. */
  datatype MailFields = MailFields(
    customerName: string, typeLabel: string, deadline: string, statusLabel: string, updaterName: string)

  /** The comment line of the text: present only for a truthy comment. */
  function CommentText(comment: Option<string>): (line: string)
    ensures Truthy(comment) <==> line != ""
  {
    if Truthy(comment) then "コメント: " + comment.value else ""
  }

  function CommentHtml(comment: Option<string>): (p: string)
    ensures Truthy(comment) <==> p != ""
  {
    if Truthy(comment) then "<p><strong>コメント:</strong> " + comment.value + "</p>" else ""
  }

  /** The values substituted into both templates, in order. */
  function Substitutions(f: MailFields, commentPart: string): seq<string>
  {
    [f.customerName, f.typeLabel, f.deadline, f.statusLabel, f.updaterName, commentPart]
  }

  /** The literal parts of the `subject` template. */
  const SubjectStrings: seq<string> := ["【ステータス更新】", " - ", ""]

  /** The literal parts of the `text` template, around its six substitutions. */
  const TextStrings: seq<string> := [
    "\nチケットのステータスが更新されました\n\nお客様名: ",
    "\n種別: ",
    "\n期日: ",
    "\n新しいステータス: ",
    "\n更新者: ",
    "\n",
    "\n\n詳細は依頼チェッカーで確認してください。\n        "]

  /** The literal parts of the `html` template, around its six substitutions. */
  const HtmlStrings: seq<string> := [
    "\n            <div style=\"font-family: sans-serif; max-width: 600px; margin: 0 auto;\">"
      + "\n                <h2 style=\"color: #333;\">チケットのステータスが更新されました</h2>"
      + "\n                "
      + "\n                <div style=\"background: #f5f5f5; padding: 20px; border-radius: 8px; margin: 20px 0;\">"
      + "\n                    <p><strong>お客様名:</strong> ",
    "</p>\n                    <p><strong>種別:</strong> ",
    "</p>\n                    <p><strong>期日:</strong> ",
    "</p>\n                    <p><strong>新しいステータス:</strong> <span style=\"color: #7c3aed; font-weight: bold;\">",
    "</span></p>\n                    <p><strong>更新者:</strong> ",
    "</p>\n                    ",
    "\n                </div>\n                \n                <p>詳細は依頼チェッカーで確認してください。</p>"
      + "\n            </div>\n        "]

  function StatusSubject(f: MailFields): string
  {
    TemplateLiteral(SubjectStrings, [f.customerName, f.typeLabel])
  }

  function StatusText(f: MailFields, comment: Option<string>): string
  {
    TemplateLiteral(TextStrings, Substitutions(f, CommentText(comment)))
  }

  function StatusHtml(f: MailFields, comment: Option<string>): string
  {
    TemplateLiteral(HtmlStrings, Substitutions(f, CommentHtml(comment)))
  }

  /**
   * The comment appears in both the text and the markup exactly when it is
   * truthy: a truthy comment is written out, and a falsy one leaves the mail
   * as it is without a comment.
   */
  lemma CommentShownIffTruthy(f: MailFields, comment: Option<string>)
    ensures Truthy(comment) ==> Contains(StatusText(f, comment), "コメント: " + comment.value)
    ensures Truthy(comment) ==> Contains(StatusHtml(f, comment), "<p><strong>コメント:</strong> " + comment.value + "</p>")
    ensures !Truthy(comment) <==> StatusText(f, comment) == StatusText(f, None)
    ensures !Truthy(comment) <==> StatusHtml(f, comment) == StatusHtml(f, None)
  {
    var t, t0 := Substitutions(f, CommentText(comment)), Substitutions(f, CommentText(None));
    var h, h0 := Substitutions(f, CommentHtml(comment)), Substitutions(f, CommentHtml(None));
    TemplateReplaceLength(TextStrings, t, t0, 5);
    TemplateReplaceLength(HtmlStrings, h, h0, 5);
    TemplateContainsSubstitution(TextStrings, t, 5);
    TemplateContainsSubstitution(HtmlStrings, h, 5);
    if !Truthy(comment) {
      assert t == t0 && h == h0;
    }
  }

  /** The mail names the customer, the type, the new status and the updater, in the subject, text and markup. */
  lemma MailShowsFields(f: MailFields, comment: Option<string>)
    ensures Contains(StatusSubject(f), f.customerName) && Contains(StatusSubject(f), f.typeLabel)
    ensures forall i :: 0 <= i < 5 ==> Contains(StatusText(f, comment), Substitutions(f, "")[i])
    ensures forall i :: 0 <= i < 5 ==> Contains(StatusHtml(f, comment), Substitutions(f, "")[i])
  {
    TemplateContainsSubstitution(SubjectStrings, [f.customerName, f.typeLabel], 0);
    TemplateContainsSubstitution(SubjectStrings, [f.customerName, f.typeLabel], 1);
    forall i | 0 <= i < 5
      ensures Contains(StatusText(f, comment), Substitutions(f, "")[i])
      ensures Contains(StatusHtml(f, comment), Substitutions(f, "")[i])
    {
      TemplateContainsSubstitution(TextStrings, Substitutions(f, CommentText(comment)), i);
      TemplateContainsSubstitution(HtmlStrings, Substitutions(f, CommentHtml(comment)), i);
    }
  }

  // ---------------------------------------------------------------- the route

  /** Past every guard: the fields are there, the ticket and its creator exist, and someone else updated it. */
  predicate Notifies(req: Request, tickets: map<string, TicketDoc>, users: map<string, User>)
  {
    && HasRequiredFields(req)
    && req.ticketId.value in tickets
    && req.updatedBy.value != tickets[req.ticketId.value].createdBy
    && tickets[req.ticketId.value].createdBy in users
  }

  /** The mail to the creator. */
  function StatusMail(req: Request, doc: TicketDoc, creator: User, users: map<string, User>,
                      localeDate: Time -> string): EmailMessage
    requires HasRequiredFields(req)
  {
    var f := MailFields(doc.customerName, TypeLabelText(TypeName(doc.ticketType)), localeDate(doc.deadline),
                        StatusLabelText(req.newStatus.value), UpdaterName(users, req.updatedBy.value));
    EmailMessage(creator.email, StatusSubject(f), StatusHtml(f, req.comment), StatusText(f, req.comment))
  }

  /** The log document written after the send. */
  function StatusEntry(req: Request, doc: TicketDoc, creator: User, now: Time, r: SendResult): LogEntry
    requires HasRequiredFields(req)
  {
    LogEntry(Some(StatusUpdateType), doc.createdBy, creator.email, [req.ticketId.value], now, None,
             if r.success then Success else Failed, r.error,
             Some(StatusMetadata(req.newStatus.value, req.updatedBy.value)))
  }

  /** `${result.error}`: a missing error prints as `undefined`. */
  function ErrorText(e: Option<string>): string
  {
    e.GetOr("undefined")
  }

  /** The answer after the send. */
  function SentReply(email: string, r: SendResult): Reply
  {
    Reply(200, r.success, Some(if r.success then "Notification sent to " + email
                               else "Failed to send notification: " + ErrorText(r.error)), None)
  }

  /** The route: the guard ladder, then one send to the creator and one log entry. */
  method NotifyStatusUpdate(req: Request, tickets: map<string, TicketDoc>, users: map<string, User>,
                            logIn: seq<LogEntry>, now: Time, localeDate: Time -> string,
                            send: EmailMessage -> SendResult)
    returns (reply: Reply, log: seq<LogEntry>, outbox: seq<EmailMessage>)
    ensures !Notifies(req, tickets, users) ==> log == logIn && outbox == []
    ensures !HasRequiredFields(req) ==> reply == Reply(400, false, None, Some(MissingFields))
    ensures HasRequiredFields(req) && req.ticketId.value !in tickets ==>
      reply == Reply(404, false, None, Some(TicketNotFound))
    ensures HasRequiredFields(req) && req.ticketId.value in tickets
            && req.updatedBy.value == tickets[req.ticketId.value].createdBy ==>
      reply == Reply(200, true, Some(NoNotificationNeeded), None)
    ensures HasRequiredFields(req) && req.ticketId.value in tickets
            && req.updatedBy.value != tickets[req.ticketId.value].createdBy
            && tickets[req.ticketId.value].createdBy !in users ==>
      reply == Reply(200, false, None, Some(CreatorNotFound))
    ensures Notifies(req, tickets, users) ==>
      var doc := tickets[req.ticketId.value];
      var creator := users[doc.createdBy];
      var mail := StatusMail(req, doc, creator, users, localeDate);
      && outbox == [mail]
      && mail.to == creator.email
      && log == logIn + [StatusEntry(req, doc, creator, now, send(mail))]
      && reply == SentReply(creator.email, send(mail))
      && reply.success == send(mail).success
  {
    log, outbox := logIn, [];
    if !Truthy(req.ticketId) || !Truthy(req.newStatus) || !Truthy(req.updatedBy) {
      reply := Reply(400, false, None, Some(MissingFields));
      return;
    }
    var ticketId := req.ticketId.value;
    if ticketId !in tickets {
      reply := Reply(404, false, None, Some(TicketNotFound));
      return;
    }
    var ticketData := tickets[ticketId];
    var creatorId := ticketData.createdBy;
    if req.updatedBy.value == creatorId {
      reply := Reply(200, true, Some(NoNotificationNeeded), None);
      return;
    }
    if creatorId !in users {
      reply := Reply(200, false, None, Some(CreatorNotFound));
      return;
    }
    var creator := users[creatorId];
    var mail := StatusMail(req, ticketData, creator, users, localeDate);
    var result := send(mail);
    log := log + [StatusEntry(req, ticketData, creator, now, result)];
    outbox := outbox + [mail];
    reply := SentReply(creator.email, result);
  }
}
