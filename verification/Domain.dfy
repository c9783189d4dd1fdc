/** Entities of the approval workflow (internal/domain/models.go) and the few
    string functions of the Go standard library that its rules depend on. */
module Domain {

  datatype Option<+T> = None | Some(value: T)

  /** Instants and durations, in any one unit. */
  type Time = int

  /** A role is a string in the program; OtherRole stands for every string that is not one of the three constants. */
  datatype Role = Employee | Reviewer | Admin | OtherRole(name: string)

  datatype Status = Draft | PendingReview | Approved | Rejected | Executed | ExecutionFailed

  datatype Actor = Actor(id: string, role: Role)

  datatype Request = Request(
    id: string,
    kind: string,
    target: string,
    justification: string,
    requester: string,
    reviewer: string,
    status: Status,
    version: int,
    reminders: int,
    attempts: int,
    lastError: string,
    createdAt: Time,
    updatedAt: Time,
    submittedAt: Option<Time>,
    approvedAt: Option<Time>,
    reviewedAt: Option<Time>,
    executedAt: Option<Time>,
    remindedAt: Option<Time>,
    nextAt: Option<Time>)

  datatype Decision = Approve | Reject

  /** The action strings of the audit log, one constructor each, in the order of the workflow. */
  datatype Action =
    | DraftCreated
    | RequestSubmitted
    | ReviewAssigned
    | ReminderSent
    | RequestDecided(decision: Decision)
    | AttemptSucceeded
    | AttemptFailed

  datatype AuditEntry = AuditEntry(requestId: string, actor: Actor, action: Action, description: string,
                                   createdAt: Time)

  datatype ReviewAction = ReviewAction(requestId: string, decision: Decision, comment: string, actorId: string,
                                       createdAt: Time)

  datatype JobKind = ReminderJob | ExecutionJob

  datatype JobRun = JobRun(requestId: string, kind: JobKind, succeeded: bool, attempt: int, message: string,
                           executedAt: Time)

  datatype IdempotencyRecord = IdempotencyRecord(key: string, scope: string, fingerprint: string, requestId: string,
                                                 createdAt: Time)

  datatype Error = InvalidInput | Forbidden | NotFound | Conflict | KeyUsed

  /** What a call hands back: a row, the zero row with a nil error, the nil error of a worker pass, or an error. */
  datatype Reply = Returned(row: Request) | ZeroRow | Finished | Failed(error: Error)

  const SYSTEM := Actor("system", Admin)

  /** The characters `unicode.IsSpace` accepts. */
  predicate IsSpace(c: char) {
    c in "\t\n\r \U{0B}\U{0C}\U{85}\U{A0}\U{1680}\U{2028}\U{2029}\U{202F}\U{205F}\U{3000}"
    || '\U{2000}' <= c <= '\U{200A}'
  }

  function TrimLeft(s: string): string {
    if s != [] && IsSpace(s[0]) then TrimLeft(s[1..]) else s
  }

  function TrimRight(s: string): string {
    if s != [] && IsSpace(s[|s| - 1]) then TrimRight(s[..|s| - 1]) else s
  }

  /** `strings.TrimSpace` */
  function TrimSpace(s: string): string {
    TrimRight(TrimLeft(s))
  }

  predicate Blank(s: string) {
    TrimSpace(s) == ""
  }

  predicate ValidActor(actor: Actor) {
    !Blank(actor.id) && !actor.role.OtherRole?
  }

  /** `unicode.ToLower`, exact wherever either side is a letter of "fail"; U+0130 is the one
      character outside ASCII that it maps to such a letter. */
  function Lower(c: char): char {
    if 'A' <= c <= 'Z' then c - 'A' + 'a'
    else if c == '\U{0130}' then 'i'
    else c
  }

  /** Whether `strings.Contains(strings.ToLower(s), "fail")`. */
  predicate MentionsFail(s: string) {
    exists i :: 0 <= i && i + 4 <= |s| && FailAt(s, i)
  }

  predicate FailAt(s: string, i: nat)
    requires i + 4 <= |s|
  {
    Lower(s[i]) == 'f' && Lower(s[i + 1]) == 'a' && Lower(s[i + 2]) == 'i' && Lower(s[i + 3]) == 'l'
  }
}
