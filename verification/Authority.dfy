/** Who did what: in any run, every winning transition was made by somebody entitled to it, in terms of roles and
    rows. */
module Authority {
  import opened Domain
  import opened Workflow
  import opened Machine

  /** What event `e` shows of its author and left in the row. */
  ghost predicate Entitled(cfg: Config, row: Request, e: Event)
    requires e.Changed?
  {
    match e.change
    case Submit(_) =>
      && e.due == None && (e.actor.role == Admin || e.actor.id == row.requester)
      && row.status != Draft && row.submittedAt == Some(e.at)
    case Decide(d, _, _) =>
      && e.due == None
      && (e.actor.role == Admin || (e.actor.role == Reviewer && e.actor.id == row.reviewer == cfg.reviewer))
      && e.actor.id != row.requester
      && Decided(row.status) && row.reviewedAt == Some(e.at) && (d == Approve <==> row.approvedAt.Some?)
    case Remind =>
      && e.due == Some(e.at) && row.reminders > 0
      && row.submittedAt.Some? && row.submittedAt.value + cfg.reminderAfter <= e.at
    case Execute(_, _) =>
      && (e.due == None ==> e.actor.role == Admin || e.actor.role == Reviewer)
      && row.status in {Executed, ExecutionFailed} && row.attempts > 0
  }

  ghost predicate AllEntitled(cfg: Config, rows: Rows, events: seq<Event>) {
    forall e <- events :: e.Changed? ==> e.id in rows && Entitled(cfg, rows[e.id], e)
  }

  lemma EntitledLater(cfg: Config, before: Request, after: Request, e: Event)
    requires e.Changed? && Entitled(cfg, before, e) && Descends(before, after) && Shape(cfg, before)
    requires Shape(cfg, after)
    ensures Entitled(cfg, after, e)
  {
  }

  lemma PerformEntitled(cfg: Config, rows: Rows, e: Event)
    requires cfg.maxAttempts >= 1 && RowsOk(cfg, rows) && Perform(cfg, rows, e).Some? && e.Changed?
    ensures var after := Perform(cfg, rows, e).value; e.id in after && Entitled(cfg, after[e.id], e)
  {
    assert Shape(cfg, rows[e.id]);
    hide RowsOk, TrimSpace;
  }

  lemma {:induction false} EventsEntitled(cfg: Config, events: seq<Event>)
    requires cfg.maxAttempts >= 1 && PerformAll(cfg, events).Some?
    ensures RowsOk(cfg, PerformAll(cfg, events).value) && AllEntitled(cfg, PerformAll(cfg, events).value, events)
  {
    if events != [] {
      hide Perform, Entitled, Shape, Descends;
      var before, last := events[..|events| - 1], events[|events| - 1];
      EventsEntitled(cfg, before);
      var rows, after := PerformAll(cfg, before).value, PerformAll(cfg, events).value;
      PerformKeepsRows(cfg, rows, last);
      forall e <- events | e.Changed? ensures e.id in after && Entitled(cfg, after[e.id], e) {
        if e in before {
          EntitledLater(cfg, rows[e.id], after[e.id], e);
        } else {
          PerformEntitled(cfg, rows, last);
        }
      }
    } else {
      assert RowsOk(cfg, map[]);
    }
  }

  /** In any run: submissions were made by the requester or an admin; decisions by an admin, or by a reviewer who is the
      default one and assigned to the row, never by the requester; results came from a worker's listing or were reported
      by a reviewer or an admin. */
  lemma WinsEntitled(cfg: Config, moves: seq<Move>, e: Event)
    requires cfg.maxAttempts >= 1 && e in Events(cfg, moves) && e.Changed?
    ensures var rows := Run(cfg, moves).db.requests;
            && e.id in rows
            && var (actor, row) := (e.actor, rows[e.id]);
               && (e.change.Submit? ==> actor.role == Admin || actor.id == row.requester)
               && (e.change.Decide? ==>
                     && (actor.role == Admin || (actor.role == Reviewer && actor.id == cfg.reviewer == row.reviewer))
                     && actor.id != row.requester)
               && (e.change.Remind? ==> e.due == Some(e.at) && row.submittedAt.Some?
                                        && row.submittedAt.value + cfg.reminderAfter <= e.at)
               && (e.change.Execute? && e.due == None ==> actor.role == Admin || actor.role == Reviewer)
  {
    Linearisable(cfg, moves);
    EventsEntitled(cfg, Events(cfg, moves));
    hide Run, Events, RowsOk;
  }
}
