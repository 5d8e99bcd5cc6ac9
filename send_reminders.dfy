/**
 * The daily reminder job of src/app/api/cron/sendReminders/route.ts: select
 * the overdue open tickets, group them by assignee, and mail each assignee
 * once a day, logging every send.
 *
 * The store is passed in as the sequence of documents the `status !=
 * completed` query returns, in the order it returns them, the user
 * documents as a map, and `notificationLogs` as a sequence; the clock is the
 * parameter `now`, and `sendEmail` is the oracle `send`. Local time is taken
 * to be UTC, so `today` is the start of the UTC day.
 *
 * The route reads the assignee from fields named `assignedPartnerId` and
 * `assignedPartnerEmail` while the repository writes `assignedKddiId` and
 * `assignedKddiEmail`; the model has one assignee field, which both use.
 * `AsWrittenOverdue` reads the tickets as the route does, and
 * `AsWrittenOneGroup` shows that they then all fall into one group.
 */
module SendReminders {
  import opened Wrappers
  import opened Text
  import opened Utils
  import opened Types
  import opened Seqs
  import opened NotificationService

  // ---------------------------------------------------------------- selection

  function NotCompleted(): Ticket -> bool
  {
    (t: Ticket) => t.status != Completed
  }

  /** The forEach test: the deadline's day is before today. */
  function OverdueOn(now: Time): Ticket -> bool
  {
    (t: Ticket) => IsOverdue(t.deadline, now)
  }

  /** The tickets the job reminds about: the `status != completed` query, then the deadline test. */
  function OverdueTickets(collection: seq<Ticket>, now: Time): seq<Ticket>
  {
    Filter(Filter(collection, NotCompleted()), OverdueOn(now))
  }

  /** The overdue set is exactly the open tickets whose deadline day is before today's. */
  lemma OverdueTicketsAre(collection: seq<Ticket>, now: Time)
    ensures IsSubsequence(OverdueTickets(collection, now), collection)
    ensures forall t :: t in OverdueTickets(collection, now) <==>
      t in collection && t.status != Completed && DayOf(t.deadline) < DayOf(now)
  {
    var open := Filter(collection, NotCompleted());
    SubsequenceTrans(OverdueTickets(collection, now), open, collection);
    forall t: Ticket ensures IsOverdue(t.deadline, now) <==> DayOf(t.deadline) < DayOf(now) {
      IsOverdueByDay(t.deadline, now);
    }
  }

  /** Two clocks on the same day select the same tickets. */
  lemma OverdueTicketsByDay(collection: seq<Ticket>, now1: Time, now2: Time)
    requires DayOf(now1) == DayOf(now2)
    ensures OverdueTickets(collection, now1) == OverdueTickets(collection, now2)
  {
    var open := Filter(collection, NotCompleted());
    forall t | t in open ensures OverdueOn(now1)(t) == OverdueOn(now2)(t) {
      IsOverdueByDay(t.deadline, now1);
      IsOverdueByDay(t.deadline, now2);
    }
    FilterCongruent(open, OverdueOn(now1), OverdueOn(now2));
  }

  /** The `forEach` over the query's documents. */
  method SelectOverdue(snapshot: seq<Ticket>, now: Time) returns (overdueTickets: seq<Ticket>)
    ensures overdueTickets == Filter(snapshot, OverdueOn(now))
  {
    var today := StartOfDay(now);
    overdueTickets := [];
    for i := 0 to |snapshot|
      invariant overdueTickets == Filter(snapshot[..i], OverdueOn(now))
    {
      var deadline := StartOfDay(snapshot[i].deadline);
      SelectStep(snapshot, i, now);
      if deadline < today {
        overdueTickets := overdueTickets + [snapshot[i]];
      }
    }
    assert snapshot[..|snapshot|] == snapshot;
  }

  // ----------------------------------------------------------------- grouping

  /** One entry of `ticketsByUser`. */
  datatype Group = Group(userId: string, email: string, tickets: seq<Ticket>)

  /** The value `ticketsByUser[userId]`. */
  datatype Bucket = Bucket(email: string, tickets: seq<Ticket>)

  function AssignedTo(id: string): Ticket -> bool
  {
    (t: Ticket) => t.assigneeId == id
  }

  predicate HasAssignee(ts: seq<Ticket>, id: string)
  {
    exists t :: t in ts && t.assigneeId == id
  }

  /** The assignee ids in the order they first occur: the key order of `ticketsByUser`. */
  function Assignees(ts: seq<Ticket>): (ids: seq<string>)
    ensures forall id :: id in ids <==> HasAssignee(ts, id)
    ensures forall i, j :: 0 <= i < j < |ids| ==> ids[i] != ids[j]
  {
    if ts == [] then []
    else
      var front, t := ts[..|ts| - 1], ts[|ts| - 1];
      assert ts == front + [t];
      var ids := Assignees(front);
      if t.assigneeId in ids then ids else ids + [t.assigneeId]
  }

  /**
   * The keys are in first-seen order: the first ticket of an earlier key
   * comes before every ticket of a later key.
   */
  lemma {:induction false} AssigneesFirstSeenOrder(ts: seq<Ticket>, i: nat, j: nat)
    requires i < j < |Assignees(ts)|
    ensures exists k :: 0 <= k < |ts| && ts[k].assigneeId == Assignees(ts)[i]
                        && forall l :: 0 <= l <= k ==> ts[l].assigneeId != Assignees(ts)[j]
  {
    var front, t := ts[..|ts| - 1], ts[|ts| - 1];
    assert ts == front + [t];
    var ids := Assignees(front);
    if j < |ids| {
      AssigneesFirstSeenOrder(front, i, j);
      var k :| 0 <= k < |front| && front[k].assigneeId == ids[i]
               && forall l :: 0 <= l <= k ==> front[l].assigneeId != ids[j];
      assert ts[k] == front[k];
      assert forall l :: 0 <= l <= k ==> ts[l] == front[l];
    } else {
      assert Assignees(ts)[j] == t.assigneeId && !HasAssignee(front, t.assigneeId);
      assert ids[i] in ids;
      var u :| u in front && u.assigneeId == ids[i];
      var k :| 0 <= k < |front| && front[k] == u;
      assert ts[k] == front[k];
      forall l | 0 <= l <= k ensures ts[l].assigneeId != t.assigneeId {
        assert ts[l] == front[l] && front[l] in front;
      }
    }
  }

  /** The email of the first ticket assigned to `id`. */
  function FirstEmail(ts: seq<Ticket>, id: string): string
  {
    if ts == [] then ""
    else
      var front, t := ts[..|ts| - 1], ts[|ts| - 1];
      if HasAssignee(front, id) then FirstEmail(front, id)
      else if t.assigneeId == id then t.assigneeEmail
      else ""
  }

  /** `FirstEmail` is the email of the earliest ticket of that assignee. */
  lemma {:induction false} FirstEmailIsFirst(ts: seq<Ticket>, id: string)
    requires HasAssignee(ts, id)
    ensures exists k :: 0 <= k < |ts| && ts[k].assigneeId == id && ts[k].assigneeEmail == FirstEmail(ts, id)
                        && (forall j :: 0 <= j < k ==> ts[j].assigneeId != id)
  {
    var front, t := ts[..|ts| - 1], ts[|ts| - 1];
    assert ts == front + [t];
    if HasAssignee(front, id) {
      FirstEmailIsFirst(front, id);
      var k :| 0 <= k < |front| && front[k].assigneeId == id && front[k].assigneeEmail == FirstEmail(front, id)
               && (forall j :: 0 <= j < k ==> front[j].assigneeId != id);
      assert ts[k] == front[k];
      assert forall j :: 0 <= j < k ==> ts[j] == front[j];
    } else {
      var k := |ts| - 1;
      assert t.assigneeId == id by {
        var u :| u in ts && u.assigneeId == id;
        if u != t {
          assert u in front;
        }
      }
      forall j | 0 <= j < k ensures ts[j].assigneeId != id {
        assert ts[j] == front[j] && front[j] in front;
      }
      assert ts[k] == t;
    }
  }

  /** What `ticketsByUser` holds for `id`. */
  function BucketOf(ts: seq<Ticket>, id: string): Bucket
  {
    Bucket(FirstEmail(ts, id), Filter(ts, AssignedTo(id)))
  }

  /** `Object.entries(ticketsByUser)`: one group per assignee, in first-occurrence order. */
  function Grouping(ts: seq<Ticket>): (groups: seq<Group>)
    ensures |groups| == |Assignees(ts)|
    ensures forall i :: 0 <= i < |groups| ==>
      groups[i] == Group(Assignees(ts)[i], FirstEmail(ts, Assignees(ts)[i]), Filter(ts, AssignedTo(Assignees(ts)[i])))
  {
    var ids := Assignees(ts);
    seq(|ids|, i requires 0 <= i < |ids| => Group(ids[i], BucketOf(ts, ids[i]).email, BucketOf(ts, ids[i]).tickets))
  }

  lemma AssigneesSnoc(ts: seq<Ticket>, t: Ticket)
    ensures Assignees(ts + [t]) ==
      if t.assigneeId in Assignees(ts) then Assignees(ts) else Assignees(ts) + [t.assigneeId]
  {
    assert (ts + [t])[..|ts + [t]| - 1] == ts;
  }

  /** One more ticket changes the first email only for an assignee not seen before. */
  lemma FirstEmailSnoc(ts: seq<Ticket>, t: Ticket, id: string)
    ensures FirstEmail(ts + [t], id) ==
      if HasAssignee(ts, id) then FirstEmail(ts, id) else if t.assigneeId == id then t.assigneeEmail else ""
  {
    assert (ts + [t])[..|ts + [t]| - 1] == ts;
  }

  /** Adding a ticket to the grouping touches only its assignee's bucket. */
  lemma BucketSnoc(ts: seq<Ticket>, t: Ticket, id: string)
    requires id == t.assigneeId || HasAssignee(ts, id)
    ensures BucketOf(ts + [t], id) ==
      if id != t.assigneeId then BucketOf(ts, id)
      else if HasAssignee(ts, id) then BucketOf(ts, id).(tickets := BucketOf(ts, id).tickets + [t])
      else Bucket(t.assigneeEmail, [t])
  {
    FirstEmailSnoc(ts, t, id);
    FilterSnoc(ts, t, AssignedTo(id));
    assert AssignedTo(id)(t) == (t.assigneeId == id);
    if !HasAssignee(ts, id) {
      FilterEmpty(ts, AssignedTo(id));
    }
  }

  /** The loop step of `SelectOverdue`. */
  lemma SelectStep(snapshot: seq<Ticket>, i: nat, now: Time)
    requires i < |snapshot|
    ensures Filter(snapshot[..i + 1], OverdueOn(now)) ==
      Filter(snapshot[..i], OverdueOn(now))
        + (if StartOfDay(snapshot[i].deadline) < StartOfDay(now) then [snapshot[i]] else [])
  {
    OverdueIffBeforeStartOfToday(snapshot[i].deadline, now);
    assert snapshot[..i + 1] == snapshot[..i] + [snapshot[i]];
    FilterSnoc(snapshot[..i], snapshot[i], OverdueOn(now));
  }

  /** `acc` and `keys` hold the `ticketsByUser` object after the tickets `ts`. */
  ghost predicate Tracks(acc: map<string, Bucket>, keys: seq<string>, ts: seq<Ticket>)
  {
    && keys == Assignees(ts)
    && (forall id :: id in acc <==> id in keys)
    && (forall id :: id in acc ==> acc[id] == BucketOf(ts, id))
  }

  /** One step of the `reduce`: open the assignee's bucket if needed, then append. */
  function AddTicket(acc: map<string, Bucket>, t: Ticket): (r: map<string, Bucket>)
    ensures r.Keys == acc.Keys + {t.assigneeId}
  {
    var b := if t.assigneeId in acc then acc[t.assigneeId] else Bucket(t.assigneeEmail, []);
    acc[t.assigneeId := b.(tickets := b.tickets + [t])]
  }

  lemma TracksSnoc(acc: map<string, Bucket>, keys: seq<string>, ts: seq<Ticket>, t: Ticket)
    requires Tracks(acc, keys, ts)
    ensures Tracks(AddTicket(acc, t), if t.assigneeId in acc then keys else keys + [t.assigneeId], ts + [t])
  {
    var r := AddTicket(acc, t);
    var newKeys := if t.assigneeId in acc then keys else keys + [t.assigneeId];
    TracksKeysSnoc(acc, keys, ts, t);
    assert forall id :: id in r ==> r[id] == BucketOf(ts + [t], id) by {
      forall id | id in r ensures r[id] == BucketOf(ts + [t], id) {
        TracksSnocAt(acc, keys, ts, t, id);
      }
    }
    assert Tracks(r, newKeys, ts + [t]);
  }

  /** The keys after one `reduce` step. */
  lemma TracksKeysSnoc(acc: map<string, Bucket>, keys: seq<string>, ts: seq<Ticket>, t: Ticket)
    requires keys == Assignees(ts) && forall id :: id in acc <==> id in keys
    ensures var newKeys := if t.assigneeId in acc then keys else keys + [t.assigneeId];
      && newKeys == Assignees(ts + [t])
      && forall id :: id in AddTicket(acc, t) <==> id in newKeys
  {
    AssigneesSnoc(ts, t);
  }

  /** The bucket `id` after one `reduce` step. */
  lemma TracksSnocAt(acc: map<string, Bucket>, keys: seq<string>, ts: seq<Ticket>, t: Ticket, id: string)
    requires Tracks(acc, keys, ts) && (id == t.assigneeId || id in acc)
    ensures AddTicket(acc, t)[id] == BucketOf(ts + [t], id)
  {
    assert id in acc <==> HasAssignee(ts, id);
    BucketSnoc(ts, t, id);
  }

  /** `Object.entries` of the finished object, in key order. */
  function ObjectEntries(acc: map<string, Bucket>, keys: seq<string>): seq<Group>
    requires forall id :: id in keys ==> id in acc
  {
    seq(|keys|, i requires 0 <= i < |keys| => Group(keys[i], acc[keys[i]].email, acc[keys[i]].tickets))
  }

  lemma TracksGrouping(acc: map<string, Bucket>, keys: seq<string>, ts: seq<Ticket>)
    requires Tracks(acc, keys, ts)
    ensures ObjectEntries(acc, keys) == Grouping(ts)
  {
    var e, g := ObjectEntries(acc, keys), Grouping(ts);
    forall i | 0 <= i < |e| ensures e[i] == g[i] {
      assert keys[i] in keys;
    }
  }

  /** The `reduce` that builds `ticketsByUser`, and its `Object.entries`. */
  method GroupByAssignee(overdueTickets: seq<Ticket>) returns (groups: seq<Group>)
    ensures groups == Grouping(overdueTickets)
  {
    var acc: map<string, Bucket> := map[];
    var keys: seq<string> := [];
    for i := 0 to |overdueTickets|
      invariant Tracks(acc, keys, overdueTickets[..i])
    {
      var ticket := overdueTickets[i];
      assert overdueTickets[..i + 1] == overdueTickets[..i] + [ticket];
      TracksSnoc(acc, keys, overdueTickets[..i], ticket);
      if ticket.assigneeId !in acc {
        keys := keys + [ticket.assigneeId];
      }
      acc := AddTicket(acc, ticket);
    }
    assert overdueTickets[..|overdueTickets|] == overdueTickets;
    TracksGrouping(acc, keys, overdueTickets);
    groups := ObjectEntries(acc, keys);
  }

  // ------------------------------------------------------- partition facts

  /** The number of tickets the groups hold between them. */
  function TotalTickets(gs: seq<Group>): nat
  {
    if gs == [] then 0 else TotalTickets(gs[..|gs| - 1]) + |gs[|gs| - 1].tickets|
  }

  /** The tickets of `ts` counted per assignee of `ids`. */
  function CountFor(ts: seq<Ticket>, ids: seq<string>): nat
  {
    if ids == [] then 0 else CountFor(ts, ids[..|ids| - 1]) + |Filter(ts, AssignedTo(ids[|ids| - 1]))|
  }

  predicate Distinct(ids: seq<string>)
  {
    forall i, j :: 0 <= i < j < |ids| ==> ids[i] != ids[j]
  }

  lemma {:induction false} CountForSnoc(ts: seq<Ticket>, t: Ticket, ids: seq<string>)
    requires Distinct(ids)
    ensures CountFor(ts + [t], ids) == CountFor(ts, ids) + (if t.assigneeId in ids then 1 else 0)
  {
    if ids != [] {
      var front, id := ids[..|ids| - 1], ids[|ids| - 1];
      assert ids == front + [id];
      assert forall i :: 0 <= i < |front| ==> front[i] == ids[i];
      CountForSnoc(ts, t, front);
      FilterSnoc(ts, t, AssignedTo(id));
    }
  }

  lemma {:induction false} CountForAssignees(ts: seq<Ticket>)
    ensures CountFor(ts, Assignees(ts)) == |ts|
  {
    if ts != [] {
      var front, t := ts[..|ts| - 1], ts[|ts| - 1];
      assert ts == front + [t];
      CountForAssignees(front);
      AssigneesSnoc(front, t);
      var ids := Assignees(front);
      CountForSnoc(front, t, ids);
      if t.assigneeId !in ids {
        var more := ids + [t.assigneeId];
        assert more[..|more| - 1] == ids;
        FilterSnoc(front, t, AssignedTo(t.assigneeId));
        FilterEmpty(front, AssignedTo(t.assigneeId));
      }
    }
  }

  lemma {:induction false} TotalTicketsCount(gs: seq<Group>, ts: seq<Ticket>, ids: seq<string>)
    requires |gs| == |ids|
    requires forall i :: 0 <= i < |gs| ==> gs[i].tickets == Filter(ts, AssignedTo(ids[i]))
    ensures TotalTickets(gs) == CountFor(ts, ids)
  {
    if gs != [] {
      TotalTicketsCount(gs[..|gs| - 1], ts, ids[..|ids| - 1]);
    }
  }

  /**
   * Grouping partitions the tickets: one group per assignee, each holding
   * exactly that assignee's tickets in input order, and every ticket in one
   * group; the group sizes add up to the number of tickets.
   */
  lemma GroupingPartitions(ts: seq<Ticket>)
    ensures Distinct(Assignees(ts))
    ensures forall i :: 0 <= i < |Grouping(ts)| ==> Grouping(ts)[i].userId == Assignees(ts)[i]
    ensures forall i :: 0 <= i < |Grouping(ts)| ==>
      IsSubsequence(Grouping(ts)[i].tickets, ts) &&
      forall t :: t in Grouping(ts)[i].tickets <==> t in ts && t.assigneeId == Grouping(ts)[i].userId
    ensures forall t :: t in ts ==> exists i :: 0 <= i < |Grouping(ts)| && Grouping(ts)[i].userId == t.assigneeId
    ensures TotalTickets(Grouping(ts)) == |ts|
  {
    var gs, ids := Grouping(ts), Assignees(ts);
    forall t | t in ts ensures exists i :: 0 <= i < |gs| && gs[i].userId == t.assigneeId {
      assert HasAssignee(ts, t.assigneeId);
      var i :| 0 <= i < |ids| && ids[i] == t.assigneeId;
      assert gs[i].userId == t.assigneeId;
    }
    TotalTicketsCount(gs, ts, ids);
    CountForAssignees(ts);
  }

  // ------------------------------------------------- the assignee field as written

  /**
   * What `undefined` becomes as a property key. The route's `forEach` copies
   * `data.assignedPartnerId` and `data.assignedPartnerEmail`, but the
   * repository stores the assignee under `assignedKddiId` and
   * `assignedKddiEmail`, so both reads give `undefined`.
   */
  const UndefinedKey: string := "undefined"

  /** The ticket the route builds from a stored document, as written: the assignee fields read as `undefined`. */
  function ReadAsWritten(t: Ticket): Ticket
  {
    t.(assigneeId := UndefinedKey, assigneeEmail := UndefinedKey)
  }

  /** The overdue tickets as the route, as written, collects them. */
  function AsWrittenOverdue(collection: seq<Ticket>, now: Time): seq<Ticket>
  {
    Map(OverdueTickets(collection, now), (t: Ticket) => ReadAsWritten(t))
  }

  /**
   * As written, however many assignees the overdue tickets have, the
   * `reduce` makes one group, keyed `undefined`, holding every overdue ticket.
   */
  lemma AsWrittenOneGroup(collection: seq<Ticket>, now: Time)
    requires OverdueTickets(collection, now) != []
    ensures |Grouping(AsWrittenOverdue(collection, now))| == 1
    ensures Grouping(AsWrittenOverdue(collection, now))[0].userId == UndefinedKey
    ensures Grouping(AsWrittenOverdue(collection, now))[0].tickets == AsWrittenOverdue(collection, now)
  {
    var ts := AsWrittenOverdue(collection, now);
    assert forall t :: t in ts ==> t.assigneeId == UndefinedKey;
    SharedAssigneeOneGroup(ts, UndefinedKey);
  }

  /** Tickets that all name one assignee make one group holding all of them. */
  lemma SharedAssigneeOneGroup(ts: seq<Ticket>, u: string)
    requires ts != [] && forall t :: t in ts ==> t.assigneeId == u
    ensures |Grouping(ts)| == 1 && Grouping(ts)[0].userId == u && Grouping(ts)[0].tickets == ts
  {
    AssigneesOfOne(ts, u);
    FilterAll(ts, AssignedTo(u));
  }

  /** Tickets that all name one assignee have that assignee alone. */
  lemma {:induction false} AssigneesOfOne(ts: seq<Ticket>, u: string)
    requires ts != [] && forall t :: t in ts ==> t.assigneeId == u
    ensures Assignees(ts) == [u]
  {
    var front, t := ts[..|ts| - 1], ts[|ts| - 1];
    assert ts == front + [t];
    assert t in ts;
    if front != [] {
      assert forall x :: x in front ==> x in ts;
      AssigneesOfOne(front, u);
    }
  }

  /** A group's email is that of the first ticket of its assignee. */
  lemma GroupEmailIsFirst(ts: seq<Ticket>, i: nat)
    requires i < |Grouping(ts)|
    ensures exists k :: 0 <= k < |ts| && ts[k].assigneeId == Grouping(ts)[i].userId
                && ts[k].assigneeEmail == Grouping(ts)[i].email
                && (forall j :: 0 <= j < k ==> ts[j].assigneeId != Grouping(ts)[i].userId)
  {
    var id := Assignees(ts)[i];
    assert id in Assignees(ts);
    FirstEmailIsFirst(ts, id);
  }

  // ---------------------------------------------------------- the send loop

  const AlreadySentError: string := "Already sent today"

  /** One element of `results`. */
  datatype RecipientResult = RecipientResult(
    userId: string, email: string, ticketCount: nat, success: bool, error: Option<string>)

  /** The JSON body of the response; `results` is absent when nothing was overdue. */
  datatype Response = Response(success: bool, message: string, sentCount: nat, results: Option<seq<RecipientResult>>)

  /**
   * The fixed inputs of one run: the user documents, `todayStr`, the clock,
   * the mailer, and the content generator (`generateOverdueReminderContent`,
   * see `Reminder`; the loop's facts hold for any generator).
   */
  datatype Env = Env(
    users: map<string, User>, day: string, now: Time,
    send: EmailMessage -> SendResult, compose: (string, seq<Ticket>) -> NotificationContent)

  /** What the loop has produced so far: the log collection, the mail sent, `results`. */
  datatype RunState = RunState(log: seq<LogEntry>, outbox: seq<EmailMessage>, results: seq<RecipientResult>)

  /** `todayStr`: the ISO date of the start of today. */
  function TodayKey(now: Time): (day: string)
    ensures day == FormatDate(now)
  {
    FormatDateByDay(StartOfDay(now), now);
    Split(ToIsoString(StartOfDay(now)), 'T')[0]
  }

  /** The dedup query: some log entry has this recipient and this `sentDate`. */
  predicate AlreadySent(log: seq<LogEntry>, userId: string, day: string)
  {
    exists e :: e in log && e.recipientId == userId && e.sentDate == Some(day)
  }

  /** `userName`: the stored display name when the user exists and it is non-empty, else the email. */
  function RecipientName(users: map<string, User>, g: Group): string
  {
    if g.userId in users && users[g.userId].displayName != "" then users[g.userId].displayName else g.email
  }

  function Reminder(): (string, seq<Ticket>) -> NotificationContent
  {
    (name: string, ts: seq<Ticket>) => GenerateOverdueReminderContent(name, ts)
  }

  /** The reminder mail for one group. */
  function ReminderEmail(env: Env, g: Group): EmailMessage
  {
    var content := env.compose(RecipientName(env.users, g), g.tickets);
    EmailMessage(g.email, content.subject, content.html, content.body)
  }

  function TicketId(): Ticket -> string
  {
    (t: Ticket) => t.id
  }

  /** The log document written after a send. */
  function ReminderEntry(g: Group, day: string, now: Time, r: SendResult): LogEntry
  {
    LogEntry(None, g.userId, g.email, Map(g.tickets, TicketId()), now, Some(day),
             if r.success then Success else Failed, r.error, None)
  }

  function SkippedResult(g: Group): RecipientResult
  {
    RecipientResult(g.userId, g.email, |g.tickets|, false, Some(AlreadySentError))
  }

  function SentResult(g: Group, r: SendResult): RecipientResult
  {
    RecipientResult(g.userId, g.email, |g.tickets|, r.success, r.error)
  }

  /** One iteration of the loop over `Object.entries(ticketsByUser)`. */
  function Visit(st: RunState, g: Group, env: Env): RunState
  {
    if AlreadySent(st.log, g.userId, env.day) then st.(results := st.results + [SkippedResult(g)])
    else
      var m := ReminderEmail(env, g);
      var r := env.send(m);
      RunState(st.log + [ReminderEntry(g, env.day, env.now, r)], st.outbox + [m], st.results + [SentResult(g, r)])
  }

  /** The loop, group by group, in key order. */
  function Run(gs: seq<Group>, start: RunState, env: Env): RunState
  {
    if gs == [] then start else Visit(Run(gs[..|gs| - 1], start, env), gs[|gs| - 1], env)
  }

  // ------------------------------------------------- what the loop amounts to

  /** The groups with no log entry for today in the log as it was before the run. */
  function Unlogged(log: seq<LogEntry>, day: string): Group -> bool
  {
    (g: Group) => !AlreadySent(log, g.userId, day)
  }

  function MessageFor(env: Env): Group -> EmailMessage
  {
    (g: Group) => ReminderEmail(env, g)
  }

  function EntryFor(env: Env): Group -> LogEntry
  {
    (g: Group) => ReminderEntry(g, env.day, env.now, env.send(ReminderEmail(env, g)))
  }

  function ResultFor(env: Env, log: seq<LogEntry>): Group -> RecipientResult
  {
    (g: Group) =>
      if AlreadySent(log, g.userId, env.day) then SkippedResult(g)
      else SentResult(g, env.send(ReminderEmail(env, g)))
  }

  function UserIds(gs: seq<Group>): seq<string>
  {
    seq(|gs|, i requires 0 <= i < |gs| => gs[i].userId)
  }

  /** The entries the run appends are for the groups it visited. */
  lemma EntriesAreFor(env: Env, hs: seq<Group>, gs: seq<Group>, id: string)
    requires forall h :: h in hs ==> h in gs
    requires forall g :: g in gs ==> g.userId != id
    ensures !AlreadySent(Map(hs, EntryFor(env)), id, env.day)
  {
    var es := Map(hs, EntryFor(env));
    forall e | e in es ensures e.recipientId != id {
      var k :| 0 <= k < |es| && es[k] == e;
      var h := hs[k];
      assert h in hs;
      assert e == ReminderEntry(h, env.day, env.now, env.send(ReminderEmail(env, h)));
    }
  }

  /** Entries for other recipients do not change the dedup answer for `id`. */
  lemma AlreadySentSkipsOthers(log: seq<LogEntry>, more: seq<LogEntry>, id: string, day: string)
    requires !AlreadySent(more, id, day)
    ensures AlreadySent(log + more, id, day) <==> AlreadySent(log, id, day)
  {
    if AlreadySent(log + more, id, day) {
      var e :| e in log + more && e.recipientId == id && e.sentDate == Some(day);
    }
  }

  /** The state `RunIs` describes after the groups `gs`. */
  function Expected(gs: seq<Group>, log: seq<LogEntry>, env: Env): RunState
  {
    var kept := Filter(gs, Unlogged(log, env.day));
    RunState(log + Map(kept, EntryFor(env)), Map(kept, MessageFor(env)), Map(gs, ResultFor(env, log)))
  }

  /** A group with a log entry for today only adds its skip result. */
  lemma VisitSkips(front: seq<Group>, g: Group, log: seq<LogEntry>, env: Env)
    requires AlreadySent(log, g.userId, env.day)
    ensures Visit(Expected(front, log, env), g, env) == Expected(front + [g], log, env)
  {
    FilterSnoc(front, g, Unlogged(log, env.day));
    MapAppend(front, [g], ResultFor(env, log));
  }

  /** A group without one adds its entry, its mail and its result. */
  lemma VisitSends(front: seq<Group>, g: Group, log: seq<LogEntry>, env: Env)
    requires !AlreadySent(log, g.userId, env.day)
    requires !AlreadySent(Expected(front, log, env).log, g.userId, env.day)
    ensures Visit(Expected(front, log, env), g, env) == Expected(front + [g], log, env)
  {
    var kept := Filter(front, Unlogged(log, env.day));
    FilterSnoc(front, g, Unlogged(log, env.day));
    MapAppend(front, [g], ResultFor(env, log));
    MapAppend(kept, [g], EntryFor(env));
    MapAppend(kept, [g], MessageFor(env));
  }

  /** The loop step of `RunIs`. */
  lemma VisitStep(front: seq<Group>, g: Group, log: seq<LogEntry>, env: Env)
    requires forall h :: h in front ==> h.userId != g.userId
    ensures Visit(Expected(front, log, env), g, env) == Expected(front + [g], log, env)
  {
    var kept := Filter(front, Unlogged(log, env.day));
    EntriesAreFor(env, kept, front, g.userId);
    AlreadySentSkipsOthers(log, Map(kept, EntryFor(env)), g.userId, env.day);
    if AlreadySent(log, g.userId, env.day) {
      VisitSkips(front, g, log, env);
    } else {
      VisitSends(front, g, log, env);
    }
  }

  /**
   * The run visits the groups in order; since their ids are distinct, a
   * group is skipped exactly when the log held an entry for it before the
   * run. It appends one entry, and sends one mail, per group that was not
   * skipped, in group order, and records one result per group.
   */
  lemma {:induction false} RunIs(gs: seq<Group>, log: seq<LogEntry>, env: Env)
    requires Distinct(UserIds(gs))
    ensures Run(gs, RunState(log, [], []), env) == Expected(gs, log, env)
  {
    if gs == [] {
      assert log + [] == log;
    } else {
      var front, g := gs[..|gs| - 1], gs[|gs| - 1];
      assert gs == front + [g];
      assert UserIds(front) == UserIds(gs)[..|front|];
      RunIs(front, log, env);
      forall h | h in front ensures h.userId != g.userId {
        var k :| 0 <= k < |front| && front[k] == h;
        assert UserIds(gs)[k] == h.userId && UserIds(gs)[|front|] == g.userId;
      }
      VisitStep(front, g, log, env);
    }
  }

  /** The ids of the groups `Grouping` builds are distinct. */
  lemma GroupIdsDistinct(ts: seq<Ticket>)
    ensures Distinct(UserIds(Grouping(ts)))
  {
    GroupingPartitions(ts);
    assert UserIds(Grouping(ts)) == Assignees(ts);
  }

  /** After a run every group has a log entry for today, whether it was sent now or before. */
  lemma RunCovers(gs: seq<Group>, log: seq<LogEntry>, env: Env)
    requires Distinct(UserIds(gs))
    ensures forall g :: g in gs ==> AlreadySent(Run(gs, RunState(log, [], []), env).log, g.userId, env.day)
  {
    RunIs(gs, log, env);
    var kept := Filter(gs, Unlogged(log, env.day));
    var es := Map(kept, EntryFor(env));
    forall g | g in gs ensures AlreadySent(log + es, g.userId, env.day) {
      if AlreadySent(log, g.userId, env.day) {
        var e :| e in log && e.recipientId == g.userId && e.sentDate == Some(env.day);
        assert e in log + es;
      } else {
        assert g in kept;
        var k :| 0 <= k < |kept| && kept[k] == g;
        assert es[k] == ReminderEntry(g, env.day, env.now, env.send(ReminderEmail(env, g)));
        assert es[k] in log + es;
      }
    }
  }

  // ------------------------------------------------------------------ counts

  function Succeeded(): RecipientResult -> bool
  {
    (r: RecipientResult) => r.success
  }

  /** The results `failCount` counts: unsuccessful, and not a skip. */
  function FailedToSend(): RecipientResult -> bool
  {
    (r: RecipientResult) => !r.success && r.error != Some(AlreadySentError)
  }

  function WasSkipped(): RecipientResult -> bool
  {
    (r: RecipientResult) => !r.success && r.error == Some(AlreadySentError)
  }

  /** Every result is counted once: as sent, as failed, or as skipped. */
  lemma {:induction false} CountsAddUp(results: seq<RecipientResult>)
    ensures |Filter(results, Succeeded())| + |Filter(results, FailedToSend())| + |Filter(results, WasSkipped())| == |results|
  {
    if results != [] {
      CountsAddUp(results[1..]);
    }
  }

  /** The groups whose mail went out and was reported delivered. */
  function Delivered(env: Env, log: seq<LogEntry>): Group -> bool
  {
    (g: Group) => !AlreadySent(log, g.userId, env.day) && env.send(ReminderEmail(env, g)).success
  }

  /** `sentCount` counts the groups that were sent a mail and whose send succeeded. */
  lemma SentCountIsDeliveries(gs: seq<Group>, log: seq<LogEntry>, env: Env)
    ensures |Filter(Map(gs, ResultFor(env, log)), Succeeded())| == |Filter(gs, Delivered(env, log))|
  {
    forall g | g in gs ensures Delivered(env, log)(g) == Succeeded()(ResultFor(env, log)(g)) {
      var r := ResultFor(env, log)(g);
      assert r == if AlreadySent(log, g.userId, env.day) then SkippedResult(g)
                  else SentResult(g, env.send(ReminderEmail(env, g)));
      assert Succeeded()(r) == r.success;
      assert Delivered(env, log)(g) == (!AlreadySent(log, g.userId, env.day) && env.send(ReminderEmail(env, g)).success);
    }
    MapFilterCount(gs, ResultFor(env, log), Succeeded(), Delivered(env, log));
  }

  /** The response message. */
  function Summary(successCount: nat, failCount: nat): string
  {
    "Sent " + NatToString(successCount) + " reminder emails, " + NatToString(failCount) + " failed"
  }

  // ----------------------------------------------------------------- the job

  /** What one `POST` returns and leaves behind. */
  datatype JobResult = JobResult(response: Response, log: seq<LogEntry>, outbox: seq<EmailMessage>)

  const NothingOverdue: string := "No overdue tickets found"

  /** The job over the collection, the users, the log before it, the clock and the mailer. */
  function Job(collection: seq<Ticket>, users: map<string, User>, log: seq<LogEntry>, now: Time,
               send: EmailMessage -> SendResult, compose: (string, seq<Ticket>) -> NotificationContent): JobResult
  {
    var overdue := OverdueTickets(collection, now);
    if overdue == [] then JobResult(Response(true, NothingOverdue, 0, None), log, [])
    else
      var st := Run(Grouping(overdue), RunState(log, [], []), Env(users, TodayKey(now), now, send, compose));
      var successCount := |Filter(st.results, Succeeded())|;
      var failCount := |Filter(st.results, FailedToSend())|;
      JobResult(Response(true, Summary(successCount, failCount), successCount, Some(st.results)), st.log, st.outbox)
  }

  /** The `for` loop over `Object.entries(ticketsByUser)`. */
  method NotifyGroups(groups: seq<Group>, logIn: seq<LogEntry>, env: Env)
    returns (log: seq<LogEntry>, outbox: seq<EmailMessage>, results: seq<RecipientResult>)
    ensures RunState(log, outbox, results) == Run(groups, RunState(logIn, [], []), env)
  {
    log, outbox, results := logIn, [], [];
    for i := 0 to |groups|
      invariant RunState(log, outbox, results) == Run(groups[..i], RunState(logIn, [], []), env)
    {
      var g := groups[i];
      assert groups[..i + 1] == groups[..i] + [g];
      if AlreadySent(log, g.userId, env.day) {
        results := results + [SkippedResult(g)];
      } else {
        var message := ReminderEmail(env, g);
        var result := env.send(message);
        log := log + [ReminderEntry(g, env.day, env.now, result)];
        outbox := outbox + [message];
        results := results + [SentResult(g, result)];
      }
    }
    assert groups[..|groups|] == groups;
  }

  /**
   * `POST /api/cron/sendReminders`: select, group, and for each group in
   * key order either skip it (already logged today) or send its reminder
   * and log the send; then count.
   */
  method SendReminders(collection: seq<Ticket>, users: map<string, User>, logIn: seq<LogEntry>, now: Time,
                       send: EmailMessage -> SendResult)
    returns (response: Response, log: seq<LogEntry>, outbox: seq<EmailMessage>)
    ensures JobResult(response, log, outbox) == Job(collection, users, logIn, now, send, Reminder())
  {
    var snapshot := Filter(collection, NotCompleted());
    var overdueTickets := SelectOverdue(snapshot, now);
    log, outbox := logIn, [];
    if |overdueTickets| == 0 {
      response := Response(true, NothingOverdue, 0, None);
      return;
    }
    var groups := GroupByAssignee(overdueTickets);
    var todayStr := Split(ToIsoString(StartOfDay(now)), 'T')[0];
    var env := Env(users, todayStr, now, send, Reminder());
    var results;
    log, outbox, results := NotifyGroups(groups, logIn, env);
    var successCount := |Filter(results, Succeeded())|;
    var failCount := |Filter(results, FailedToSend())|;
    response := Response(true, Summary(successCount, failCount), successCount, Some(results));
  }

  /**
   * What a run does, in the source's terms: with nothing overdue it answers
   * at once and touches nothing; otherwise it appends one entry and sends one
   * mail per group that had no entry for today, in group order, records one
   * result per group, and `sentCount` is the number of delivered mails.
   */
  lemma JobReport(collection: seq<Ticket>, users: map<string, User>, log: seq<LogEntry>, now: Time,
                  send: EmailMessage -> SendResult, compose: (string, seq<Ticket>) -> NotificationContent)
    ensures Job(collection, users, log, now, send, compose).response.success
    ensures OverdueTickets(collection, now) == [] ==>
      Job(collection, users, log, now, send, compose) == JobResult(Response(true, NothingOverdue, 0, None), log, [])
    ensures OverdueTickets(collection, now) != [] ==>
      var gs := Grouping(OverdueTickets(collection, now));
      var env := Env(users, FormatDate(now), now, send, compose);
      var kept := Filter(gs, Unlogged(log, env.day));
      var j := Job(collection, users, log, now, send, compose);
      && j.log == log + Map(kept, EntryFor(env))
      && j.outbox == Map(kept, MessageFor(env))
      && j.response.results == Some(Map(gs, ResultFor(env, log)))
      && j.response.sentCount == |Filter(gs, Delivered(env, log))|
  {
    var ts := OverdueTickets(collection, now);
    if ts != [] {
      var gs := Grouping(ts);
      var env := Env(users, FormatDate(now), now, send, compose);
      GroupIdsDistinct(ts);
      RunIs(gs, log, env);
      SentCountIsDeliveries(gs, log, env);
    }
  }

  /** A run over groups that all have an entry for the day only skips them. */
  lemma RunOverLoggedSkips(gs: seq<Group>, log: seq<LogEntry>, env: Env)
    requires Distinct(UserIds(gs))
    requires forall g :: g in gs ==> AlreadySent(log, g.userId, env.day)
    ensures Run(gs, RunState(log, [], []), env).log == log
    ensures Run(gs, RunState(log, [], []), env).outbox == []
    ensures forall r :: r in Run(gs, RunState(log, [], []), env).results ==> WasSkipped()(r)
  {
    RunIs(gs, log, env);
    FilterEmpty(gs, Unlogged(log, env.day));
    var rs := Map(gs, ResultFor(env, log));
    forall r | r in rs ensures WasSkipped()(r) {
      var k :| 0 <= k < |rs| && rs[k] == r;
      assert gs[k] in gs;
      assert r == ResultFor(env, log)(gs[k]);
      assert r == SkippedResult(gs[k]);
    }
  }

  /**
   * Idempotence: a second run on the same day over the same tickets, given
   * the log the first run left, sends nothing, logs nothing and reports
   * every group as already sent, whatever the mailer answered either time.
   */
  lemma SecondRunSendsNothing(collection: seq<Ticket>, users: map<string, User>, log: seq<LogEntry>,
                              now1: Time, now2: Time, send1: EmailMessage -> SendResult, send2: EmailMessage -> SendResult,
                              compose: (string, seq<Ticket>) -> NotificationContent)
    requires DayOf(now1) == DayOf(now2)
    ensures
      var first := Job(collection, users, log, now1, send1, compose);
      var second := Job(collection, users, first.log, now2, send2, compose);
      && second.log == first.log
      && second.outbox == []
      && second.response.sentCount == 0
      && (second.response.results.Some? ==>
            forall r :: r in second.response.results.value ==> r.error == Some(AlreadySentError) && !r.success)
  {
    var ts := OverdueTickets(collection, now1);
    OverdueTicketsByDay(collection, now1, now2);
    FormatDateByDay(now1, now2);
    if ts != [] {
      var gs := Grouping(ts);
      var env1 := Env(users, FormatDate(now1), now1, send1, compose);
      var env2 := Env(users, FormatDate(now2), now2, send2, compose);
      GroupIdsDistinct(ts);
      RunCovers(gs, log, env1);
      var first := Run(gs, RunState(log, [], []), env1);
      RunOverLoggedSkips(gs, first.log, env2);
      var rs := Run(gs, RunState(first.log, [], []), env2).results;
      FilterEmpty(rs, Succeeded());
    }
  }
}
