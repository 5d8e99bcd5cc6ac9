/**
 * The ticket repository and access policy of src/lib/firebase/tickets.ts.
 * The `tickets` collection is a map from document id to stored document, held
 * by a `TicketStore` object whose methods are the repository's writers; the
 * server timestamp is the parameter `now`. A query's result, which the store
 * computes and orders, is passed in as `listing`, with a precondition saying
 * which documents it lists and in which order.
 */
module Tickets {
  import opened Wrappers
  import opened Text
  import opened Utils
  import opened Types
  import opened Seqs

  /** A stored ticket document (`FirestoreTicket`): a ticket without its id. */
  datatype TicketDoc = TicketDoc(
    ticketType: TicketType,
    customerName: string,
    description: string,
    deadline: Time,
    assigneeId: string,
    assigneeEmail: string,
    createdBy: string,
    status: TicketStatus,
    comment: Option<string>,
    createdAt: Time,
    updatedAt: Time,
    completedAt: Option<Time>)

  /** `convertFirestoreTicket(id, data)`. */
  function ConvertTicket(id: string, d: TicketDoc): Ticket
  {
    Ticket(id, d.ticketType, d.customerName, d.description, d.deadline, d.assigneeId, d.assigneeEmail,
           d.createdBy, d.status, d.comment, d.createdAt, d.updatedAt, d.completedAt)
  }

  function DocOf(t: Ticket): TicketDoc
  {
    TicketDoc(t.ticketType, t.customerName, t.description, t.deadline, t.assigneeId, t.assigneeEmail,
              t.createdBy, t.status, t.comment, t.createdAt, t.updatedAt, t.completedAt)
  }

  /** Conversion loses nothing: the document and id can be read back from the ticket. */
  lemma ConvertTicketRoundTrip(id: string, d: TicketDoc)
    ensures DocOf(ConvertTicket(id, d)) == d && ConvertTicket(id, d).id == id
  {
  }

  /**
   * The fields an `updateDoc` call writes (`updateData`): an absent field is
   * left as it is in the stored document.
   */
  datatype TicketPatch = TicketPatch(
    ticketType: Option<TicketType>,
    customerName: Option<string>,
    description: Option<string>,
    deadline: Option<Time>,
    assigneeId: Option<string>,
    assigneeEmail: Option<string>,
    status: Option<TicketStatus>,
    comment: Option<string>,
    updatedAt: Time,
    completedAt: Option<Time>)

  /** `updateDoc(ref, patch)` on an existing document: merge the written fields. */
  function ApplyPatch(d: TicketDoc, p: TicketPatch): TicketDoc
  {
    TicketDoc(
      p.ticketType.GetOr(d.ticketType),
      p.customerName.GetOr(d.customerName),
      p.description.GetOr(d.description),
      p.deadline.GetOr(d.deadline),
      p.assigneeId.GetOr(d.assigneeId),
      p.assigneeEmail.GetOr(d.assigneeEmail),
      d.createdBy,
      p.status.GetOr(d.status),
      if p.comment.Some? then p.comment else d.comment,
      d.createdAt,
      p.updatedAt,
      if p.completedAt.Some? then p.completedAt else d.completedAt)
  }

  /** What a write to a document reports: `updateDoc` rejects when the document does not exist. */
  datatype WriteResult = Written | NotFound

  /** The id the store gives the `n`-th document it creates. */
  function IdFor(n: nat): string
  {
    NatToString(n)
  }

  /** A ticket returned as a query result, checked against the store. */
  predicate ListsStore(l: seq<Ticket>, docs: map<string, TicketDoc>, keep: Ticket -> bool)
  {
    && (forall i :: 0 <= i < |l| ==> l[i].id in docs && l[i] == ConvertTicket(l[i].id, docs[l[i].id]) && keep(l[i]))
    && (forall id :: id in docs && keep(ConvertTicket(id, docs[id])) ==> exists i :: 0 <= i < |l| && l[i].id == id)
    && (forall i, j :: 0 <= i < j < |l| ==> l[i].id != l[j].id)
  }

  /** `orderBy('createdAt', 'desc')`. */
  predicate NewestFirst(l: seq<Ticket>)
  {
    Pairwise(l, (a: Ticket, b: Ticket) => a.createdAt >= b.createdAt)
  }

  /** The position of a status name in string order: completed < confirmed < pending_approval < rejected < unconfirmed. */
  function StatusRank(s: TicketStatus): nat
  {
    match s
    case Completed => 0
    case Confirmed => 1
    case PendingApproval => 2
    case Rejected => 3
    case Unconfirmed => 4
  }

  /** `orderBy('status')` compares the stored status strings; `StatusRank` is that order. */
  lemma StatusRankIsNameOrder(a: TicketStatus, b: TicketStatus)
    ensures StatusRank(a) < StatusRank(b) <==> LexLess(StatusName(a), StatusName(b))
  {
    assert LexLess("completed", "confirmed") by {
      assert "completed"[1..] == "ompleted" && "confirmed"[1..] == "onfirmed";
      assert "ompleted"[1..] == "mpleted" && "onfirmed"[1..] == "nfirmed";
    }
    assert !LexLess("confirmed", "completed") by {
      assert "completed"[1..] == "ompleted" && "confirmed"[1..] == "onfirmed";
      assert "ompleted"[1..] == "mpleted" && "onfirmed"[1..] == "nfirmed";
    }
    assert !LexLess(StatusName(a), StatusName(a)) by {
      LexLessIrreflexive(StatusName(a));
    }
  }

  lemma {:induction false} LexLessIrreflexive(s: string)
    ensures !LexLess(s, s)
  {
    if s != [] {
      LexLessIrreflexive(s[1..]);
    }
  }

  /** `orderBy('status'), orderBy('deadline', 'asc')`. */
  predicate ByStatusThenDeadline(l: seq<Ticket>)
  {
    Pairwise(l, (a: Ticket, b: Ticket) =>
      StatusRank(a.status) < StatusRank(b.status) || (a.status == b.status && a.deadline <= b.deadline))
  }

  // ------------------------------------------------------------ query filters

  /** Role scoping: a `kddi` user sees only the tickets assigned to them. */
  predicate InScope(user: Option<User>, t: Ticket)
  {
    user.None? || user.value.role != Kddi || t.assigneeId == user.value.id
  }

  predicate PassesStatusFilter(f: Option<StatusFilter>, t: Ticket)
  {
    match f
    case None => true
    case Some(AllStatusesFilter) => true
    case Some(AllExceptCompleted) => t.status != Completed
    case Some(OnlyStatus(s)) => t.status == s
  }

  predicate PassesTypeFilter(f: Option<TypeFilter>, t: Ticket)
  {
    match f
    case None => true
    case Some(AllTypesFilter) => true
    case Some(OnlyType(ty)) => t.ticketType == ty
  }

  /** An absent or empty assignee filter, or `'all'`, lets everything through. */
  predicate PassesAssigneeFilter(f: Option<string>, t: Ticket)
  {
    f.None? || f.value == "" || f.value == "all" || t.assigneeId == f.value
  }

  predicate PassesOverdueFilter(f: Option<bool>, now: Time, t: Ticket)
  {
    f != Some(true) || (t.deadline < StartOfDay(now) && t.status != Completed)
  }

  predicate PassesFilters(filters: TicketFilters, now: Time, t: Ticket)
  {
    && PassesStatusFilter(filters.status, t)
    && PassesTypeFilter(filters.ticketType, t)
    && PassesAssigneeFilter(filters.assigneeId, t)
    && PassesOverdueFilter(filters.overdueOnly, now, t)
  }

  /** `overdueOnly` keeps exactly the overdue tickets that are not completed. */
  lemma OverdueOnlyMeansOverdue(now: Time, t: Ticket)
    ensures PassesOverdueFilter(Some(true), now, t) <==> IsOverdue(t.deadline, now) && t.status != Completed
  {
    OverdueIffBeforeStartOfToday(t.deadline, now);
  }

  /** One step of the filter chain: filtering a query result keeps it a listing of its own source, in order. */
  lemma FilterStep(s: seq<Ticket>, src: seq<Ticket>, p: Ticket -> bool, order: (Ticket, Ticket) -> bool)
    requires IsSubsequence(s, src) && Pairwise(s, order)
    ensures IsSubsequence(Filter(s, p), src) && Pairwise(Filter(s, p), order)
  {
    SubsequenceTrans(Filter(s, p), s, src);
    SubsequencePairwise(Filter(s, p), s, order);
  }

  /** The `where('assignedKddiId', '==', user.id)` clause a partner user's query carries. */
  function ScopeToUser(s: seq<Ticket>, user: Option<User>): (r: seq<Ticket>)
    ensures IsSubsequence(r, s)
    ensures forall t :: t in r <==> t in s && InScope(user, t)
  {
    if user.Some? && user.value.role == Kddi then
      var uid := user.value.id;
      Filter(s, (t: Ticket) => t.assigneeId == uid)
    else
      SubsequenceRefl(s); s
  }

  /** The status filter: skipped when absent or `'all'`. */
  function FilterByStatus(s: seq<Ticket>, f: Option<StatusFilter>): (r: seq<Ticket>)
    ensures IsSubsequence(r, s)
    ensures forall t :: t in r <==> t in s && PassesStatusFilter(f, t)
  {
    if f.Some? && f.value != AllStatusesFilter then
      if f.value == AllExceptCompleted then Filter(s, (t: Ticket) => t.status != Completed)
      else
        var wanted := f.value.status;
        Filter(s, (t: Ticket) => t.status == wanted)
    else
      SubsequenceRefl(s); s
  }

  /** The type filter: skipped when absent or `'all'`. */
  function FilterByType(s: seq<Ticket>, f: Option<TypeFilter>): (r: seq<Ticket>)
    ensures IsSubsequence(r, s)
    ensures forall t :: t in r <==> t in s && PassesTypeFilter(f, t)
  {
    if f.Some? && f.value != AllTypesFilter then
      var wanted := f.value.ticketType;
      Filter(s, (t: Ticket) => t.ticketType == wanted)
    else
      SubsequenceRefl(s); s
  }

  /** The assignee filter: skipped when absent, empty or `'all'`. */
  function FilterByAssignee(s: seq<Ticket>, f: Option<string>): (r: seq<Ticket>)
    ensures IsSubsequence(r, s)
    ensures forall t :: t in r <==> t in s && PassesAssigneeFilter(f, t)
  {
    if f.Some? && f.value != "" && f.value != "all" then
      var wanted := f.value;
      Filter(s, (t: Ticket) => t.assigneeId == wanted)
    else
      SubsequenceRefl(s); s
  }

  /** The `overdueOnly` filter: deadline before the start of today, and not completed. */
  function FilterOverdue(s: seq<Ticket>, f: Option<bool>, now: Time): (r: seq<Ticket>)
    ensures IsSubsequence(r, s)
    ensures forall t :: t in r <==> t in s && PassesOverdueFilter(f, now, t)
  {
    if f == Some(true) then
      var today := StartOfDay(now);
      Filter(s, (t: Ticket) => t.deadline < today && t.status != Completed)
    else
      SubsequenceRefl(s); s
  }

  /** The query's members, read back against the stored documents. */
  lemma ListedDocs(listing: seq<Ticket>, docs: map<string, TicketDoc>, tickets: seq<Ticket>,
                   user: Option<User>, filters: TicketFilters, now: Time)
    requires ListsStore(listing, docs, (t: Ticket) => true)
    requires forall t :: t in tickets <==> t in listing && InScope(user, t) && PassesFilters(filters, now, t)
    ensures forall id :: id in docs ==>
      (ConvertTicket(id, docs[id]) in tickets <==>
       InScope(user, ConvertTicket(id, docs[id])) && PassesFilters(filters, now, ConvertTicket(id, docs[id])))
  {
    forall id | id in docs
      ensures ConvertTicket(id, docs[id]) in tickets <==>
        InScope(user, ConvertTicket(id, docs[id])) && PassesFilters(filters, now, ConvertTicket(id, docs[id]))
    {
      var i :| 0 <= i < |listing| && listing[i].id == id;
      assert listing[i] == ConvertTicket(id, docs[id]);
    }
  }

  // ------------------------------------------------------------ access policy

  /** `canEditTicket(ticket, user)`. */
  function CanEditTicket(ticket: Ticket, user: User): bool
  {
    if user.role == Admin then true
    else if user.role == Sales && ticket.createdBy == user.id then true
    else false
  }

  /** `canUpdateStatus(user)`. */
  function CanUpdateStatus(user: User): bool
  {
    user.role == Kddi
  }

  /** Admins may edit any ticket, sales users only their own, partner users none. */
  lemma CanEditTicketCases(ticket: Ticket, user: User)
    ensures user.role == Admin ==> CanEditTicket(ticket, user)
    ensures user.role == Kddi ==> !CanEditTicket(ticket, user)
    ensures user.role == Sales ==> (CanEditTicket(ticket, user) <==> ticket.createdBy == user.id)
  {
  }

  /** Only partner users may change a status; the permission depends on the role alone. */
  lemma CanUpdateStatusCases(user: User, other: User)
    ensures CanUpdateStatus(user) <==> user.role == Kddi
    ensures user.role == other.role ==> CanUpdateStatus(user) == CanUpdateStatus(other)
    ensures CanUpdateStatus(user) ==> forall t :: !CanEditTicket(t, user)
  {
  }

  /** A user who may change statuses reaches, through a query, only the tickets assigned to them. */
  lemma StatusAuthorityIsTicketScoped(user: User, t: Ticket)
    requires CanUpdateStatus(user) && InScope(Some(user), t)
    ensures t.assigneeId == user.id
  {
  }

  /** A stored document is in the overdue result exactly when it is open and overdue. */
  lemma OverdueDocs(listing: seq<Ticket>, docs: map<string, TicketDoc>, tickets: seq<Ticket>, now: Time)
    requires ListsStore(listing, docs, (t: Ticket) => t.status != Completed)
    requires forall t :: t in tickets <==> t in listing && IsOverdue(t.deadline, now)
    ensures forall id :: id in docs ==>
      (ConvertTicket(id, docs[id]) in tickets <==>
       docs[id].status != Completed && IsOverdue(docs[id].deadline, now))
  {
    forall id | id in docs
      ensures ConvertTicket(id, docs[id]) in tickets <==>
        docs[id].status != Completed && IsOverdue(docs[id].deadline, now)
    {
      if docs[id].status != Completed {
        var i :| 0 <= i < |listing| && listing[i].id == id;
        assert listing[i] == ConvertTicket(id, docs[id]);
      }
    }
  }

  // ------------------------------------------------------------------- store

  class TicketStore {
    /** The `tickets` collection. */
    var docs: map<string, TicketDoc>
    /** How many ids the store has handed out. */
    var issued: nat

    /** Ids not yet handed out are not in use. */
    ghost predicate Valid()
      reads this
    {
      forall k: nat :: k >= issued ==> IdFor(k) !in docs
    }

    constructor ()
      ensures Valid() && docs == map[] && issued == 0
    {
      docs := map[];
      issued := 0;
    }

    /** `createTicket(data, createdBy)`: a new document with the defaults; returns its id. */
    method CreateTicket(data: CreateTicketData, createdBy: string, now: Time) returns (id: string)
      requires Valid()
      modifies this
      ensures Valid()
      ensures id !in old(docs)
      ensures docs == old(docs)[id := TicketDoc(data.ticketType, data.customerName, data.description,
                                                 data.deadline, data.assigneeId, data.assigneeEmail,
                                                 createdBy, Unconfirmed, None, now, now, None)]
      ensures GetTicketById(id) == Some(Ticket(id, data.ticketType, data.customerName, data.description,
                                                data.deadline, data.assigneeId, data.assigneeEmail,
                                                createdBy, Unconfirmed, None, now, now, None))
    {
      id := IdFor(issued);
      var ticketData := TicketDoc(data.ticketType, data.customerName, data.description, data.deadline,
                                  data.assigneeId, data.assigneeEmail, createdBy, Unconfirmed, None, now, now, None);
      forall k: nat | k >= issued + 1 ensures IdFor(k) != id {
        NatToStringInjective(k, issued);
      }
      docs := docs[id := ticketData];
      issued := issued + 1;
    }

    /**
     * `updateTicket(ticketId, data)`: writes the supplied fields, always
     * `updatedAt`, and `completedAt` when the new status is `completed`.
     */
    method UpdateTicket(ticketId: string, data: UpdateTicketData, now: Time) returns (r: WriteResult)
      requires Valid()
      modifies this
      ensures Valid() && issued == old(issued)
      ensures r == NotFound <==> ticketId !in old(docs)
      ensures r == NotFound ==> docs == old(docs)
      ensures r == Written ==> ticketId in docs && docs == old(docs)[ticketId := docs[ticketId]]
      ensures r == Written ==>
        var o := old(docs)[ticketId];
        var n := docs[ticketId];
        && n.ticketType == data.ticketType.GetOr(o.ticketType)
        && n.customerName == data.customerName.GetOr(o.customerName)
        && n.description == data.description.GetOr(o.description)
        && n.deadline == data.deadline.GetOr(o.deadline)
        && n.assigneeId == data.assigneeId.GetOr(o.assigneeId)
        && n.assigneeEmail == data.assigneeEmail.GetOr(o.assigneeEmail)
        && n.status == data.status.GetOr(o.status)
        && n.comment == (if data.comment.Some? then data.comment else o.comment)
        && n.createdBy == o.createdBy
        && n.createdAt == o.createdAt
        && n.updatedAt == now
        && n.completedAt == (if data.status == Some(Completed) then Some(now) else o.completedAt)
        && (o.createdAt <= now ==> n.createdAt <= n.updatedAt)
    {
      var updateData := TicketPatch(data.ticketType, data.customerName, data.description, data.deadline,
                                    data.assigneeId, data.assigneeEmail, data.status, data.comment, now, None);
      // The deadline goes through Timestamp.fromDate, which keeps its value.
      if data.status == Some(Completed) {
        updateData := updateData.(completedAt := Some(now));
      }
      if ticketId !in docs {
        return NotFound;
      }
      docs := docs[ticketId := ApplyPatch(docs[ticketId], updateData)];
      r := Written;
    }

    /**
     * `updateTicketStatus(ticketId, status, comment?)`: writes the status and
     * `updatedAt`, the comment exactly when one is given (an empty one too),
     * and `completedAt` when the status is `completed`.
     */
    method UpdateTicketStatus(ticketId: string, status: TicketStatus, comment: Option<string>, now: Time)
      returns (r: WriteResult)
      requires Valid()
      modifies this
      ensures Valid() && issued == old(issued)
      ensures r == NotFound <==> ticketId !in old(docs)
      ensures r == NotFound ==> docs == old(docs)
      ensures r == Written ==> ticketId in docs && docs == old(docs)[ticketId := docs[ticketId]]
      ensures r == Written ==>
        var o := old(docs)[ticketId];
        var n := docs[ticketId];
        && n == o.(status := status, updatedAt := now,
                   comment := if comment.Some? then comment else o.comment,
                   completedAt := if status == Completed then Some(now) else o.completedAt)
        && n.assigneeId == o.assigneeId
        && (o.createdAt <= now ==> n.createdAt <= n.updatedAt)
    {
      var updateData := TicketPatch(None, None, None, None, None, None, Some(status), None, now, None);
      if comment.Some? {
        updateData := updateData.(comment := comment);
      }
      if status == Completed {
        updateData := updateData.(completedAt := Some(now));
      }
      if ticketId !in docs {
        return NotFound;
      }
      docs := docs[ticketId := ApplyPatch(docs[ticketId], updateData)];
      r := Written;
    }

    /** `getTicketById(ticketId)`: null exactly when the document does not exist. */
    function GetTicketById(ticketId: string): (r: Option<Ticket>)
      reads this
      ensures r.None? <==> ticketId !in docs
      ensures r.Some? ==> r.value.id == ticketId && DocOf(r.value) == docs[ticketId]
    {
      if ticketId !in docs then None else Some(ConvertTicket(ticketId, docs[ticketId]))
    }

    /**
     * `getTickets(filters, user)`. `listing` is the collection as
     * `orderBy('createdAt', 'desc')` returns it; the role scope and the
     * client-side filters are applied to it in the source's order.
     */
    method GetTickets(filters: TicketFilters, user: Option<User>, now: Time, listing: seq<Ticket>)
      returns (tickets: seq<Ticket>)
      requires ListsStore(listing, docs, (t: Ticket) => true) && NewestFirst(listing)
      ensures IsSubsequence(tickets, listing) && NewestFirst(tickets)
      ensures forall t :: t in tickets <==> t in listing && InScope(user, t) && PassesFilters(filters, now, t)
      ensures forall id :: id in docs ==>
        (ConvertTicket(id, docs[id]) in tickets <==>
         InScope(user, ConvertTicket(id, docs[id])) && PassesFilters(filters, now, ConvertTicket(id, docs[id])))
      ensures user.Some? && user.value.role == Kddi ==> forall t :: t in tickets ==> t.assigneeId == user.value.id
    {
      tickets := ScopeToUser(listing, user);
      var scoped := tickets;
      tickets := FilterByStatus(tickets, filters.status);
      var byStatus := tickets;
      tickets := FilterByType(tickets, filters.ticketType);
      var byType := tickets;
      tickets := FilterByAssignee(tickets, filters.assigneeId);
      var byAssignee := tickets;
      tickets := FilterOverdue(tickets, filters.overdueOnly, now);
      SubsequenceTrans(byType, byStatus, scoped);
      SubsequenceTrans(byType, scoped, listing);
      SubsequenceTrans(tickets, byAssignee, byType);
      SubsequenceTrans(tickets, byType, listing);
      SubsequencePairwise(tickets, listing, (a: Ticket, b: Ticket) => a.createdAt >= b.createdAt);
      ListedDocs(listing, docs, tickets, user, filters, now);
    }
    /**
     * `getOverdueTickets()`. `listing` is the result of the store query
     * `where('status', '!=', 'completed')`, ordered by status and deadline.
     */
    method GetOverdueTickets(now: Time, listing: seq<Ticket>) returns (tickets: seq<Ticket>)
      requires ListsStore(listing, docs, (t: Ticket) => t.status != Completed) && ByStatusThenDeadline(listing)
      ensures IsSubsequence(tickets, listing) && ByStatusThenDeadline(tickets)
      ensures forall t :: t in tickets <==> t in listing && IsOverdue(t.deadline, now)
      ensures forall id :: id in docs ==>
        (ConvertTicket(id, docs[id]) in tickets <==>
         docs[id].status != Completed && IsOverdue(docs[id].deadline, now))
    {
      var today := StartOfDay(now);
      forall t: Ticket ensures t.deadline < today <==> IsOverdue(t.deadline, now) {
        OverdueIffBeforeStartOfToday(t.deadline, now);
      }
      SubsequenceRefl(listing);
      FilterStep(listing, listing, (t: Ticket) => t.deadline < today,
                 (a: Ticket, b: Ticket) => StatusRank(a.status) < StatusRank(b.status) || (a.status == b.status && a.deadline <= b.deadline));
      tickets := Filter(listing, (t: Ticket) => t.deadline < today);
      OverdueDocs(listing, docs, tickets, now);
    }

    /** `deleteTicket(ticketId)`: removes the document; deleting a missing one changes nothing. */
    method DeleteTicket(ticketId: string)
      requires Valid()
      modifies this
      ensures Valid() && issued == old(issued)
      ensures docs == old(docs) - {ticketId}
      ensures GetTicketById(ticketId).None?
    {
      docs := docs - {ticketId};
    }
  }

  /**
   * The completion stamp is never cleared: a completed ticket moved back to
   * another status keeps its `completedAt`, so "completedAt is present
   * exactly when the status is completed" does not hold of the stored data.
   */
  lemma ReopenedTicketKeepsCompletedAt(d: TicketDoc, now: Time, next: TicketStatus)
    requires d.status == Completed && d.completedAt.Some? && next != Completed
    ensures var n := ApplyPatch(d, TicketPatch(None, None, None, None, None, None, Some(next), None, now, None));
      n.status == next && n.completedAt == d.completedAt
  {
  }
}
