/**
 * The reminder content of src/lib/notifications/notificationService.ts: the
 * subject, plain-text body and HTML body of an overdue-ticket reminder, and
 * the placeholder Plus Message channel.
 */
module NotificationService {
  import opened Wrappers
  import opened Text
  import opened Utils
  import opened Types

  /** `NotificationContent`. */
  datatype NotificationContent = NotificationContent(subject: string, body: string, html: string)

  /** What a channel's `send` reports (`{ success, error? }`). */
  datatype SendResult = SendResult(success: bool, error: Option<string>)

  /** The arguments of `sendEmail(to, { subject, html, text })`. */
  datatype EmailMessage = EmailMessage(to: string, subject: string, html: string, text: string)

  /** One line of the plain-text list: `・customer - description (期限: date)`. */
  function TicketLine(t: Ticket): string
  {
    "・" + t.customerName + " - " + t.description + " (期限: " + FormatDate(t.deadline) + ")"
  }

  /** One item of the HTML list. */
  function TicketLineHtml(t: Ticket): string
  {
    "<li><strong>" + t.customerName + "</strong> - " + t.description + " (期限: " + FormatDate(t.deadline) + ")</li>"
  }

  /** `tickets.map(line)`. */
  function TicketLines(tickets: seq<Ticket>): (r: seq<string>)
    ensures |r| == |tickets| && forall i :: 0 <= i < |r| ==> r[i] == TicketLine(tickets[i])
  {
    seq(|tickets|, i requires 0 <= i < |tickets| => TicketLine(tickets[i]))
  }

  function TicketLinesHtml(tickets: seq<Ticket>): (r: seq<string>)
    ensures |r| == |tickets| && forall i :: 0 <= i < |r| ==> r[i] == TicketLineHtml(tickets[i])
  {
    seq(|tickets|, i requires 0 <= i < |tickets| => TicketLineHtml(tickets[i]))
  }

  /** `ticketList`: the lines joined with line breaks. */
  function TicketList(tickets: seq<Ticket>): string
  {
    Join(TicketLines(tickets), "\n")
  }

  /** `ticketListHtml`: the items joined with nothing between them. */
  function TicketListHtml(tickets: seq<Ticket>): string
  {
    Concat(TicketLinesHtml(tickets))
  }

  const SubjectPrefix: string := "【要対応】期限超過チケットのお知らせ ("
  const SubjectSuffix: string := "件)"

  /** The subject line, carrying the number of tickets. */
  function Subject(count: nat): string
  {
    SubjectPrefix + NatToString(count) + SubjectSuffix
  }

  const Honorific: string := " 様"

  const BodyIntro: string :=
    "\n"
    + "\n"
    + "以下のチケットが期限を超過しています。\n"
    + "早急にご対応をお願いいたします。\n"
    + "\n"
    + "【期限超過チケット一覧】\n"

  const BodyFooter: string :=
    "\n"
    + "\n"
    + "---\n"
    + "依頼チェッカー"

  /** The plain-text template before `trim()`. */
  function BodyTemplate(recipientName: string, ticketList: string): string
  {
    "\n" + (recipientName + Honorific) + (BodyIntro + ticketList + BodyFooter) + "\n"
  }

  const HtmlDoctype: string := "<!DOCTYPE html>\n"

  const HtmlHeadLines: seq<string> := [
    "<html>",
    "<head>",
    "  <meta charset=\"utf-8\">",
    "  <style>",
    "    body { font-family: -apple-system, BlinkMacSystemFont, 'Segoe UI', Roboto, sans-serif; line-height: 1.6; color: #333; }",
    "    .container { max-width: 600px; margin: 0 auto; padding: 20px; }",
    "    .header { background: linear-gradient(135deg, #6366f1 0%, #8b5cf6 100%); color: white; padding: 20px; border-radius: 8px 8px 0 0; }",
    "    .content { background: #f8fafc; padding: 20px; border: 1px solid #e2e8f0; }",
    "    .ticket-list { background: white; border-radius: 8px; padding: 15px; margin: 15px 0; }",
    "    .ticket-list li { padding: 10px 0; border-bottom: 1px solid #e2e8f0; }",
    "    .ticket-list li:last-child { border-bottom: none; }",
    "    .footer { background: #1e293b; color: #94a3b8; padding: 15px; border-radius: 0 0 8px 8px; text-align: center; font-size: 12px; }",
    "    .alert { background: #fef2f2; border: 1px solid #fecaca; color: #dc2626; padding: 10px; border-radius: 4px; margin-bottom: 15px; }",
    "  </style>",
    "</head>",
    "<body>",
    "  <div class=\"container\">",
    "    <div class=\"header\">",
    "      <h1 style=\"margin: 0; font-size: 20px;\">依頼チェッカー</h1>",
    "      <p style=\"margin: 5px 0 0 0; opacity: 0.9;\">期限超過通知</p>",
    "    </div>",
    "    <div class=\"content\">"
  ]

  const HtmlHead: string := Lines(HtmlHeadLines) + "      <p>"

  const HtmlBeforeCount: string :=
    " 様</p>\n"
    + "      <div class=\"alert\">\n"
    + "        <strong>⚠️ "

  const HtmlBeforeList: string :=
    "件のチケットが期限を超過しています</strong>\n"
    + "      </div>\n"
    + "      <p>以下のチケットについて、早急なご対応をお願いいたします。</p>\n"
    + "      <div class=\"ticket-list\">\n"
    + "        <ul style=\"margin: 0; padding-left: 20px;\">\n"
    + "          "

  const HtmlTailLines: seq<string> := [
    "",
    "        </ul>",
    "      </div>",
    "    </div>",
    "    <div class=\"footer\">",
    "      依頼チェッカー｜このメールは自動送信されています",
    "    </div>",
    "  </div>",
    "</body>"
  ]

  const HtmlTail: string := Lines(HtmlTailLines)

  const HtmlEnd: string := "</html>"

  /**
   * The fixed markup of the HTML template around its three interpolations:
   * the recipient's name, the ticket count and the list items.
   */
  datatype HtmlFrame = HtmlFrame(
    doctype: string, head: string, beforeCount: string, beforeList: string, tail: string, end: string)

  /** The reminder's markup. */
  const ReminderFrame: HtmlFrame :=
    HtmlFrame(HtmlDoctype, HtmlHead, HtmlBeforeCount, HtmlBeforeList, HtmlTail, HtmlEnd)

  /** A frame that opens and closes with a tag, as the reminder's does. */
  predicate IsTagged(f: HtmlFrame)
  {
    f.doctype != [] && f.doctype[0] == '<' && f.end != [] && f.end[|f.end| - 1] == '>'
  }

  lemma ReminderFrameIsTagged()
    ensures IsTagged(ReminderFrame)
  {
    OuterTags();
  }

  lemma OuterTags()
    ensures HtmlDoctype != [] && HtmlDoctype[0] == '<' && HtmlEnd != [] && HtmlEnd[|HtmlEnd| - 1] == '>'
  {
  }

  /** The HTML document between the template's outer line breaks. */
  function HtmlDocument(f: HtmlFrame, recipientName: string, count: nat, ticketListHtml: string): string
  {
    f.doctype + f.head + recipientName + f.beforeCount + NatToString(count) + f.beforeList + ticketListHtml
      + f.tail + f.end
  }

  /** The HTML template before `trim()`. */
  function HtmlTemplate(f: HtmlFrame, recipientName: string, count: nat, ticketListHtml: string): string
  {
    "\n" + HtmlDocument(f, recipientName, count, ticketListHtml) + "\n"
  }

  /** The plain-text body: the template, trimmed. */
  function ReminderBody(recipientName: string, tickets: seq<Ticket>): string
  {
    Trim(BodyTemplate(recipientName, TicketList(tickets)))
  }

  /** The HTML body: the template, trimmed. */
  function ReminderHtml(f: HtmlFrame, recipientName: string, tickets: seq<Ticket>): string
  {
    Trim(HtmlTemplate(f, recipientName, |tickets|, TicketListHtml(tickets)))
  }

  /** `generateOverdueReminderContent(recipientName, tickets)`. */
  function GenerateOverdueReminderContent(recipientName: string, tickets: seq<Ticket>): NotificationContent
  {
    NotificationContent(
      Subject(|tickets|), ReminderBody(recipientName, tickets), ReminderHtml(ReminderFrame, recipientName, tickets))
  }

  /** The subject determines the number of tickets reported. */
  lemma SubjectDeterminesCount(a: nat, b: nat)
    ensures Subject(a) == Subject(b) <==> a == b
  {
    if Subject(a) == Subject(b) {
      var p, s := |SubjectPrefix|, |SubjectSuffix|;
      assert Subject(a)[p..|Subject(a)| - s] == NatToString(a);
      assert Subject(b)[p..|Subject(b)| - s] == NatToString(b);
      NatToStringInjective(a, b);
    }
  }

  /**
   * Trimming the body removes only the template's outer line breaks and any
   * blanks leading the recipient's name: the list and the signature are kept whole.
   */
  lemma BodyLayout(recipientName: string, tickets: seq<Ticket>)
    ensures ReminderBody(recipientName, tickets)
      == TrimStart(recipientName + Honorific) + (BodyIntro + TicketList(tickets) + BodyFooter)
  {
    var a := recipientName + Honorific;
    var b := BodyIntro + TicketList(tickets) + BodyFooter;
    assert !IsJsWhitespace(a[|a| - 1]);
    assert b[|b| - 1] == BodyFooter[|BodyFooter| - 1];
    TrimLeadingField(a, b);
  }

  /** A name that starts with a visible character is kept as it is. */
  lemma BodyStartsWithName(recipientName: string, tickets: seq<Ticket>)
    requires recipientName != [] && !IsJsWhitespace(recipientName[0])
    ensures ReminderBody(recipientName, tickets)
      == (recipientName + Honorific) + (BodyIntro + TicketList(tickets) + BodyFooter)
  {
    BodyLayout(recipientName, tickets);
    TrimStartNonWhitespaceHead(recipientName + Honorific);
  }

  /** Every ticket appears, as its own line, in the plain-text body. */
  lemma BodyListsEveryTicket(recipientName: string, tickets: seq<Ticket>, i: nat)
    requires i < |tickets|
    ensures Contains(ReminderBody(recipientName, tickets), TicketLine(tickets[i]))
  {
    BodyLayout(recipientName, tickets);
    var list := TicketList(tickets);
    var line := TicketLine(tickets[i]);
    JoinContainsItem(TicketLines(tickets), "\n", i);
    ContainsPrepend(list, line, BodyIntro);
    ContainsAppend(BodyIntro + list, line, BodyFooter);
    ContainsPrepend(BodyIntro + list + BodyFooter, line, TrimStart(recipientName + Honorific));
  }

  /** Trimming the HTML removes exactly the template's outer line breaks. */
  lemma HtmlLayout(f: HtmlFrame, recipientName: string, tickets: seq<Ticket>)
    requires IsTagged(f)
    ensures ReminderHtml(f, recipientName, tickets) == HtmlDocument(f, recipientName, |tickets|, TicketListHtml(tickets))
  {
    var list := TicketListHtml(tickets);
    var x := HtmlDocument(f, recipientName, |tickets|, list);
    FirstOfNine(f.doctype, f.head, recipientName, f.beforeCount, NatToString(|tickets|), f.beforeList,
                list, f.tail, f.end);
    TrimFramed(x);
  }

  /** The trimmed HTML opens with the frame's doctype and closes with its end tag. */
  lemma HtmlIsFramed(f: HtmlFrame, recipientName: string, tickets: seq<Ticket>)
    requires IsTagged(f)
    ensures StartsWith(ReminderHtml(f, recipientName, tickets), f.doctype)
    ensures EndsWith(ReminderHtml(f, recipientName, tickets), f.end)
  {
    HtmlLayout(f, recipientName, tickets);
    var list := TicketListHtml(tickets);
    var s := f.doctype;
    assert s[..|s|] == s;
    StartsWithAppend(s, f.doctype, f.head);
    s := s + f.head;
    StartsWithAppend(s, f.doctype, recipientName);
    s := s + recipientName;
    StartsWithAppend(s, f.doctype, f.beforeCount);
    s := s + f.beforeCount;
    StartsWithAppend(s, f.doctype, NatToString(|tickets|));
    s := s + NatToString(|tickets|);
    StartsWithAppend(s, f.doctype, f.beforeList);
    s := s + f.beforeList;
    StartsWithAppend(s, f.doctype, list);
    s := s + list;
    StartsWithAppend(s, f.doctype, f.tail);
    s := s + f.tail;
    StartsWithAppend(s, f.doctype, f.end);
    EndsWithSuffix(s, f.end);
  }

  /** The reminder's HTML is a whole document: `<!DOCTYPE html>` first, `</html>` last. */
  lemma ReminderHtmlIsDocument(recipientName: string, tickets: seq<Ticket>)
    ensures StartsWith(GenerateOverdueReminderContent(recipientName, tickets).html, HtmlDoctype)
    ensures EndsWith(GenerateOverdueReminderContent(recipientName, tickets).html, HtmlEnd)
  {
    ReminderFrameIsTagged();
    HtmlIsFramed(ReminderFrame, recipientName, tickets);
  }

  /** Every ticket appears, as its own list item, in the HTML body, and so does the recipient's name. */
  lemma HtmlListsEveryTicket(f: HtmlFrame, recipientName: string, tickets: seq<Ticket>, i: nat)
    requires IsTagged(f) && i < |tickets|
    ensures Contains(ReminderHtml(f, recipientName, tickets), TicketLineHtml(tickets[i]))
    ensures Contains(ReminderHtml(f, recipientName, tickets), recipientName)
  {
    HtmlLayout(f, recipientName, tickets);
    ConcatContainsItem(TicketLinesHtml(tickets), i);
    HtmlShowsList(f, recipientName, |tickets|, TicketListHtml(tickets), TicketLineHtml(tickets[i]));
    HtmlNamesRecipient(f, recipientName, |tickets|, TicketListHtml(tickets));
  }

  lemma HtmlShowsList(f: HtmlFrame, recipientName: string, count: nat, list: string, item: string)
    requires Contains(list, item)
    ensures Contains(HtmlDocument(f, recipientName, count, list), item)
  {
    var a := f.doctype + f.head + recipientName + f.beforeCount + NatToString(count) + f.beforeList;
    ContainsPrepend(list, item, a);
    ContainsAppend(a + list, item, f.tail);
    ContainsAppend(a + list + f.tail, item, f.end);
  }

  lemma HtmlNamesRecipient(f: HtmlFrame, recipientName: string, count: nat, list: string)
    ensures Contains(HtmlDocument(f, recipientName, count, list), recipientName)
  {
    var s := f.doctype + f.head + recipientName;
    ContainsSuffix(f.doctype + f.head, recipientName);
    ContainsAppend(s, recipientName, f.beforeCount);
    s := s + f.beforeCount;
    ContainsAppend(s, recipientName, NatToString(count));
    s := s + NatToString(count);
    ContainsAppend(s, recipientName, f.beforeList);
    s := s + f.beforeList;
    ContainsAppend(s, recipientName, list);
    s := s + list;
    ContainsAppend(s, recipientName, f.tail);
    s := s + f.tail;
    ContainsAppend(s, recipientName, f.end);
  }

  /**
   * When no customer name or description holds a line break, splitting the
   * list on line breaks gives back one line per ticket, in order.
   */
  lemma TicketListSplitsIntoLines(tickets: seq<Ticket>)
    requires tickets != []
    requires forall t :: t in tickets ==> '\n' !in t.customerName && '\n' !in t.description
    ensures Split(TicketList(tickets), '\n') == TicketLines(tickets)
  {
    var lines := TicketLines(tickets);
    forall i | 0 <= i < |lines| ensures '\n' !in lines[i] {
      TicketLineUnbroken(tickets[i]);
    }
    SplitJoin(lines, '\n');
  }

  lemma TicketLineUnbroken(t: Ticket)
    requires '\n' !in t.customerName && '\n' !in t.description
    ensures '\n' !in TicketLine(t)
  {
    FormatDateChars(t.deadline);
    var d := FormatDate(t.deadline);
    assert '\n' !in d;
    NoBreakInPieces("・", t.customerName, " - ", t.description, " (期限: ", d, ")");
  }

  /** The plain-text list of two batches is their lists, one after the other, on separate lines. */
  lemma TicketListAppend(a: seq<Ticket>, b: seq<Ticket>)
    requires a != [] && b != []
    ensures TicketList(a + b) == TicketList(a) + "\n" + TicketList(b)
  {
    TicketLinesAppend(a, b);
    JoinAppend(TicketLines(a), TicketLines(b), "\n");
  }

  /** The HTML list of two batches is their lists, one after the other. */
  lemma TicketListHtmlAppend(a: seq<Ticket>, b: seq<Ticket>)
    ensures TicketListHtml(a + b) == TicketListHtml(a) + TicketListHtml(b)
  {
    var l, la, lb := TicketLinesHtml(a + b), TicketLinesHtml(a), TicketLinesHtml(b);
    assert |l| == |la + lb|;
    forall i | 0 <= i < |l| ensures l[i] == (la + lb)[i] {
      if i < |a| {
        assert (a + b)[i] == a[i];
      } else {
        assert (a + b)[i] == b[i - |a|];
      }
    }
    assert l == la + lb;
    ConcatAppend(la, lb);
  }

  lemma TicketLinesAppend(a: seq<Ticket>, b: seq<Ticket>)
    ensures TicketLines(a + b) == TicketLines(a) + TicketLines(b)
  {
    var l, la, lb := TicketLines(a + b), TicketLines(a), TicketLines(b);
    assert |l| == |la + lb|;
    forall i | 0 <= i < |l| ensures l[i] == (la + lb)[i] {
      if i < |a| {
        assert (a + b)[i] == a[i];
      } else {
        assert (a + b)[i] == b[i - |a|];
      }
    }
  }

  /** `PlusMessageChannel.name`. */
  const PlusMessageChannelName: string := "plus_message"

  /** `PlusMessageChannel.send`: not implemented, so every send fails with the same error. */
  function PlusMessageSend(recipient: string, content: NotificationContent): (r: SendResult)
    ensures !r.success && r.error == Some("Plus Message channel not yet implemented")
  {
    SendResult(false, Some("Plus Message channel not yet implemented"))
  }
}
