/**
 * The domain vocabulary of src/types/index.ts: the three closed
 * enumerations with their wire names and Japanese label tables, and the
 * record shapes used by the repository and the notification routes.
 * Dates are time values (`Utils.Time`); an optional property is an `Option`.
 */
module Types {
  import opened Wrappers
  import opened Utils

  /** `kddi` is the external partner organisation's role. */
  datatype UserRole = Sales | Admin | Kddi

  datatype TicketStatus = Unconfirmed | Confirmed | PendingApproval | Rejected | Completed

  datatype TicketType = Negotiation | Approval | Other

  const AllRoles: set<UserRole> := {Sales, Admin, Kddi}
  const AllStatuses: set<TicketStatus> := {Unconfirmed, Confirmed, PendingApproval, Rejected, Completed}
  const AllTypes: set<TicketType> := {Negotiation, Approval, Other}

  /** Each enumeration has exactly the values listed. */
  lemma Enumerations()
    ensures forall r: UserRole :: r in AllRoles
    ensures forall s: TicketStatus :: s in AllStatuses
    ensures forall t: TicketType :: t in AllTypes
    ensures |AllRoles| == 3 && |AllStatuses| == 5 && |AllTypes| == 3
  {
    forall r: UserRole ensures r in AllRoles {
      match r
      case Sales =>
      case Admin =>
      case Kddi =>
    }
    forall s: TicketStatus ensures s in AllStatuses {
      match s
      case Unconfirmed =>
      case Confirmed =>
      case PendingApproval =>
      case Rejected =>
      case Completed =>
    }
    forall t: TicketType ensures t in AllTypes {
      match t
      case Negotiation =>
      case Approval =>
      case Other =>
    }
  }

  // ------------------------------------------------------------ wire names

  function RoleName(r: UserRole): string
  {
    match r
    case Sales => "sales"
    case Admin => "admin"
    case Kddi => "kddi"
  }

  function StatusName(s: TicketStatus): string
  {
    match s
    case Unconfirmed => "unconfirmed"
    case Confirmed => "confirmed"
    case PendingApproval => "pending_approval"
    case Rejected => "rejected"
    case Completed => "completed"
  }

  function TypeName(t: TicketType): string
  {
    match t
    case Negotiation => "negotiation"
    case Approval => "approval"
    case Other => "other"
  }

  function ParseRole(s: string): Option<UserRole>
  {
    if s == "sales" then Some(Sales)
    else if s == "admin" then Some(Admin)
    else if s == "kddi" then Some(Kddi)
    else None
  }

  function ParseStatus(s: string): Option<TicketStatus>
  {
    if s == "unconfirmed" then Some(Unconfirmed)
    else if s == "confirmed" then Some(Confirmed)
    else if s == "pending_approval" then Some(PendingApproval)
    else if s == "rejected" then Some(Rejected)
    else if s == "completed" then Some(Completed)
    else None
  }

  function ParseType(s: string): Option<TicketType>
  {
    if s == "negotiation" then Some(Negotiation)
    else if s == "approval" then Some(Approval)
    else if s == "other" then Some(Other)
    else None
  }

  /** The wire names and their parsers are inverse, in both directions. */
  lemma NamesRoundTrip(r: UserRole, s: TicketStatus, t: TicketType, w: string)
    ensures ParseRole(RoleName(r)) == Some(r)
    ensures ParseStatus(StatusName(s)) == Some(s)
    ensures ParseType(TypeName(t)) == Some(t)
    ensures ParseRole(w).Some? ==> RoleName(ParseRole(w).value) == w
    ensures ParseStatus(w).Some? ==> StatusName(ParseStatus(w).value) == w
    ensures ParseType(w).Some? ==> TypeName(ParseType(w).value) == w
  {
  }

  // --------------------------------------------------------------- labels

  /** TICKET_STATUS_LABELS. */
  function StatusLabel(s: TicketStatus): string
  {
    match s
    case Unconfirmed => "未確認"
    case Confirmed => "確認済み"
    case PendingApproval => "社内申請中"
    case Rejected => "差し戻し"
    case Completed => "完了"
  }

  /** TICKET_TYPE_LABELS. */
  function TypeLabel(t: TicketType): string
  {
    match t
    case Negotiation => "相対"
    case Approval => "稟議"
    case Other => "その他"
  }

  /** USER_ROLE_LABELS. */
  function RoleLabel(r: UserRole): string
  {
    match r
    case Sales => "営業"
    case Admin => "管理者"
    case Kddi => "KDDI担当"
  }

  /** Each table gives every value a non-empty label, and no two values share one. */
  lemma LabelsDistinct(a: TicketStatus, b: TicketStatus, c: TicketType, d: TicketType, e: UserRole, f: UserRole)
    ensures StatusLabel(a) != "" && TypeLabel(c) != "" && RoleLabel(e) != ""
    ensures StatusLabel(a) == StatusLabel(b) ==> a == b
    ensures TypeLabel(c) == TypeLabel(d) ==> c == d
    ensures RoleLabel(e) == RoleLabel(f) ==> e == f
  {
  }

  /**
   * `TICKET_STATUS_LABELS[key]` for an arbitrary string `key`: the label of
   * the status named `key`, or nothing when no status has that name.
   */
  function StatusLabelLookup(key: string): (r: Option<string>)
    ensures r.Some? <==> ParseStatus(key).Some?
    ensures forall s :: key == StatusName(s) ==> r == Some(StatusLabel(s))
  {
    match ParseStatus(key)
    case Some(s) => Some(StatusLabel(s))
    case None => None
  }

  /** `TICKET_TYPE_LABELS[key]`. */
  function TypeLabelLookup(key: string): (r: Option<string>)
    ensures r.Some? <==> ParseType(key).Some?
    ensures forall t :: key == TypeName(t) ==> r == Some(TypeLabel(t))
  {
    match ParseType(key)
    case Some(t) => Some(TypeLabel(t))
    case None => None
  }

  // --------------------------------------------------------------- records

  /**
   * `Ticket`. The assignee fields are `assignedKddiId` / `assignedKddiEmail`
   * in the type and the repository; the reminder job reads them under the
   * names `assignedPartnerId` / `assignedPartnerEmail` (see README). The
   * model has one assignee field. `comment` and `completedAt` are the only
   * optional fields.
   */
  datatype Ticket = Ticket(
    id: string,
    ticketType: TicketType,
    customerName: string,
    description: string,
    deadline: Time,
    assigneeId: string,
    assigneeEmail: string,
    createdBy: string,
    status: TicketStatus,
    comment: Option<string>,
    createdAt: Time,
    updatedAt: Time,
    completedAt: Option<Time>)

  /** `CreateTicketData`. */
  datatype CreateTicketData = CreateTicketData(
    ticketType: TicketType,
    customerName: string,
    description: string,
    deadline: Time,
    assigneeId: string,
    assigneeEmail: string)

  /** `UpdateTicketData`: every field optional. */
  datatype UpdateTicketData = UpdateTicketData(
    ticketType: Option<TicketType>,
    customerName: Option<string>,
    description: Option<string>,
    deadline: Option<Time>,
    assigneeId: Option<string>,
    assigneeEmail: Option<string>,
    status: Option<TicketStatus>,
    comment: Option<string>)

  /** `User`. */
  datatype User = User(
    id: string,
    email: string,
    displayName: string,
    role: UserRole,
    department: Option<string>,
    createdAt: Time)

  datatype DeliveryStatus = Success | Failed

  /** What the status-update route adds to its log entries. */
  datatype StatusMetadata = StatusMetadata(newStatus: string, updatedBy: string)

  /**
   * A document of the `notificationLogs` collection (`NotificationLog`,
   * without the store-assigned id). The reminder job also writes `sentDate`;
   * the status-update route writes `type` and `metadata` instead.
   */
  datatype LogEntry = LogEntry(
    logType: Option<string>,
    recipientId: string,
    recipientEmail: string,
    ticketIds: seq<string>,
    sentAt: Time,
    sentDate: Option<string>,
    status: DeliveryStatus,
    error: Option<string>,
    metadata: Option<StatusMetadata>)

  /** `TicketFilters.status`: `'all'`, `'all_except_completed'` or one status. */
  datatype StatusFilter = AllStatusesFilter | AllExceptCompleted | OnlyStatus(status: TicketStatus)

  /** `TicketFilters.type`: `'all'` or one type. */
  datatype TypeFilter = AllTypesFilter | OnlyType(ticketType: TicketType)

  /** `TicketFilters`; `assigneeId` is a free string in which `'all'` means no restriction. */
  datatype TicketFilters = TicketFilters(
    status: Option<StatusFilter>,
    ticketType: Option<TypeFilter>,
    assigneeId: Option<string>,
    overdueOnly: Option<bool>)

  /** `Record<TicketStatus, number>`: one number per status. */
  datatype StatusCounts = StatusCounts(
    unconfirmed: int, confirmed: int, pendingApproval: int, rejected: int, completed: int)

  /** `DashboardStats` (the type exists; nothing in the core computes it). */
  datatype DashboardStats = DashboardStats(
    overdueCount: int,
    statusCounts: StatusCounts,
    averageLeadTimeDays: real,
    totalCount: int)

  /** The entries of a `statusCounts` record, keyed by status. */
  function StatusCountEntries(c: StatusCounts): (m: map<TicketStatus, int>)
    ensures m.Keys == AllStatuses
    ensures m[Unconfirmed] == c.unconfirmed && m[Confirmed] == c.confirmed
    ensures m[PendingApproval] == c.pendingApproval && m[Rejected] == c.rejected
    ensures m[Completed] == c.completed
  {
    map[Unconfirmed := c.unconfirmed, Confirmed := c.confirmed, PendingApproval := c.pendingApproval,
        Rejected := c.rejected, Completed := c.completed]
  }

  /** Reads a `Record<TicketStatus, number>` back into a `statusCounts` record. */
  function StatusCountsOf(m: map<TicketStatus, int>): StatusCounts
    requires forall s: TicketStatus :: s in m
  {
    StatusCounts(m[Unconfirmed], m[Confirmed], m[PendingApproval], m[Rejected], m[Completed])
  }

  /**
   * `statusCounts` is a total record over the statuses: its entries cover
   * every status, and the record and its entries determine each other.
   */
  lemma StatusCountsRoundTrip(c: StatusCounts, m: map<TicketStatus, int>)
    ensures forall s: TicketStatus :: s in StatusCountEntries(c)
    ensures StatusCountsOf(StatusCountEntries(c)) == c
    ensures (forall s: TicketStatus :: s in m) ==> StatusCountEntries(StatusCountsOf(m)) == m
  {
    Enumerations();
    if forall s: TicketStatus :: s in m {
      assert m.Keys == AllStatuses;
    }
  }
}
