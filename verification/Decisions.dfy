/** One submission and one independent decision per request, however many approvals and rejections race. */
module Decisions {
  import opened Domain
  import opened Workflow
  import opened Database
  import opened Calls
  import opened Machine
  import opened Trail

  datatype Kind = Submission | Ruling | Nudge | Attempted

  function KindOf(change: Change): Kind {
    match change
    case Submit(_) => Submission
    case Decide(_, _, _) => Ruling
    case Remind => Nudge
    case Execute(_, _) => Attempted
  }

  function CountEvents(events: seq<Event>, id: string, kind: Kind): int {
    if events == [] then 0
    else
      var last := events[|events| - 1];
      CountEvents(events[..|events| - 1], id, kind) + One(last.Changed? && last.id == id && KindOf(last.change) == kind)
  }

  /** How many transitions of a kind a row shows. */
  function Shown(rows: Rows, id: string, kind: Kind): int {
    if id !in rows then 0
    else match kind
         case Submission => One(rows[id].status != Draft)
         case Ruling => One(Decided(rows[id].status))
         case Nudge => rows[id].reminders
         case Attempted => rows[id].attempts
  }

  lemma PerformShows(cfg: Config, rows: Rows, event: Event, id: string, kind: Kind)
    requires Perform(cfg, rows, event).Some?
    ensures Shown(Perform(cfg, rows, event).value, id, kind)
            == Shown(rows, id, kind) + One(event.Changed? && event.id == id && KindOf(event.change) == kind)
  {
    hide CanReview, MaySubmit, TrimSpace;
  }

  lemma {:induction false} EventsShown(cfg: Config, events: seq<Event>, id: string, kind: Kind)
    requires PerformAll(cfg, events).Some?
    ensures CountEvents(events, id, kind) == Shown(PerformAll(cfg, events).value, id, kind)
  {
    if events != [] {
      hide Perform, Shown;
      var before, last := events[..|events| - 1], events[|events| - 1];
      EventsShown(cfg, before, id, kind);
      PerformShows(cfg, PerformAll(cfg, before).value, last, id, kind);
    } else {
      assert Shown(map[], id, kind) == 0;
    }
  }

  /** In any run the winning submissions, decisions, reminders and attempts of a request are exactly those its row
      shows; so it is submitted at most once and decided at most once. */
  lemma WinsShown(cfg: Config, moves: seq<Move>, id: string, kind: Kind)
    requires cfg.maxAttempts >= 1
    ensures CountEvents(Events(cfg, moves), id, kind) == Shown(Run(cfg, moves).db.requests, id, kind)
    ensures kind == Submission || kind == Ruling ==> CountEvents(Events(cfg, moves), id, kind) <= 1
  {
    Linearisable(cfg, moves);
    EventsShown(cfg, Events(cfg, moves), id, kind);
  }

  // ---------- Who decided

  /** The decision of event `e` is the one the row carries, and its author was independent. */
  ghost predicate Stands(row: Request, e: Event)
    requires e.Changed? && e.change.Decide?
  {
    && Decided(row.status)
    && (e.actor.role == Admin || (e.actor.role == Reviewer && e.actor.id == row.reviewer))
    && e.actor.id != row.requester
    && row.reviewedAt == Some(e.at)
    && row.approvedAt.Some? == (e.change.decision == Approve)
    && (e.change.decision == Reject ==> row.status == Rejected)
  }

  ghost predicate AllStand(rows: Rows, events: seq<Event>) {
    forall e <- events :: e.Changed? && e.change.Decide? ==> e.id in rows && Stands(rows[e.id], e)
  }

  lemma StandsLater(before: Rows, after: Rows, e: Event)
    requires e.Changed? && e.change.Decide? && e.id in before && Stands(before[e.id], e) && Grows(before, after)
    ensures e.id in after && Stands(after[e.id], e)
  {
    assert Descends(before[e.id], after[e.id]);
  }

  lemma PerformStands(cfg: Config, rows: Rows, e: Event)
    requires cfg.maxAttempts >= 1 && RowsOk(cfg, rows) && Perform(cfg, rows, e).Some? && e.Changed? && e.change.Decide?
    ensures var after := Perform(cfg, rows, e).value; e.id in after && Stands(after[e.id], e)
  {
  }

  lemma {:induction false} DecisionsStand(cfg: Config, events: seq<Event>)
    requires cfg.maxAttempts >= 1 && PerformAll(cfg, events).Some?
    ensures RowsOk(cfg, PerformAll(cfg, events).value) && AllStand(PerformAll(cfg, events).value, events)
  {
    if events != [] {
      hide Perform, RowsOk, Grows, Stands;
      var before, last := events[..|events| - 1], events[|events| - 1];
      DecisionsStand(cfg, before);
      var rows, after := PerformAll(cfg, before).value, PerformAll(cfg, events).value;
      PerformKeepsRows(cfg, rows, last);
      forall e <- events | e.Changed? && e.change.Decide? ensures e.id in after && Stands(after[e.id], e) {
        if e in before { StandsLater(rows, after, e); } else { PerformStands(cfg, rows, last); }
      }
    } else {
      assert RowsOk(cfg, map[]);
    }
  }

  // ---------- Review rows

  /** A review row records the decision of an event. */
  predicate Records(review: ReviewAction, e: Event) {
    && e.Changed? && e.change.Decide? && e.id == review.requestId
    && review == ReviewAction(e.id, e.change.decision, TrimSpace(e.change.comment), e.actor.id, e.at)
  }

  ghost predicate Recorded(review: ReviewAction, events: seq<Event>) {
    exists e <- events :: Records(review, e)
  }

  ghost predicate OwedRecorded(call: Call, events: seq<Event>) {
    call.Logging? ==> forall o <- call.owed :: o.OweReview? ==> Recorded(o.review, events)
  }

  ghost predicate ReviewsRecorded(db: Db, events: seq<Event>) {
    forall id <- db.reviews :: forall review <- db.reviews[id] :: review.requestId == id && Recorded(review, events)
  }

  ghost predicate AllRecorded(s: System, events: seq<Event>) {
    ReviewsRecorded(s.db, events) && forall call <- s.calls :: OwedRecorded(call, events)
  }

  lemma AppendRecords(db: Db, owed: Owed, now: Time, events: seq<Event>)
    requires ReviewsRecorded(db, events) && (owed.OweReview? ==> Recorded(owed.review, events))
    ensures ReviewsRecorded(Append(db, owed, now), events)
  {
    hide Recorded;
  }

  lemma SwapRecorded(cfg: Config, call: Call, db: Db)
    requires call.Swapping? && call.at.Some?
    ensures OwedRecorded(Swap(cfg, call, db).0, StageEvent(call, db))
    ensures Swap(cfg, call, db).1.reviews == db.reviews
  {
    hide TrimSpace, DecisionDescription, Apply, OwedRun;
    OwedRunIsForExecutions(call.snap.id, call.snap.attempts + 1, call.change, call.then_);
    OwedRunIsForExecutions(call.snap.id, Apply(cfg, call.snap, call.change, call.at.value).attempts, call.change,
                           call.then_);
    ApplyKeepsId(cfg, call.snap, call.change, call.at.value);
    if call.change.Decide? && StageEvent(call, db) != [] {
      var e := StageEvent(call, db)[0];
      assert Records(ReviewAction(e.id, e.change.decision, TrimSpace(e.change.comment), e.actor.id, e.at), e);
    }
  }

  lemma QuietRecorded(cfg: Config, call: Call, db: Db, input: Input, events: seq<Event>)
    requires !call.Logging? && !(call.Swapping? && call.at.Some?)
    ensures var (c, d) := Act(cfg, call, db, input); OwedRecorded(c, events) && d.reviews == db.reviews
  {
    hide Recorded, Fingerprint, ReviewScope, SubmitScope, Compound, Blank, TrimSpace, CanReview, MaySubmit, Picks,
      Outcome, AwaitsExecution;
  }

  lemma RecordedLater(review: ReviewAction, events: seq<Event>, more: seq<Event>)
    requires Recorded(review, events) || Recorded(review, more)
    ensures Recorded(review, events + more)
  {
    if Recorded(review, events) {
      var e :| e in events && Records(review, e);
      assert e in events + more;
    } else {
      var e :| e in more && Records(review, e);
      assert e in events + more;
    }
  }

  lemma AllRecordedLater(s: System, events: seq<Event>, more: seq<Event>)
    requires AllRecorded(s, events)
    ensures AllRecorded(s, events + more)
  {
    hide Recorded;
    forall review | Recorded(review, events) ensures Recorded(review, events + more) {
      RecordedLater(review, events, more);
    }
  }

  lemma OwedRecordedLater(call: Call, events: seq<Event>, more: seq<Event>)
    requires OwedRecorded(call, more)
    ensures OwedRecorded(call, events + more)
  {
    hide Recorded;
    forall review | Recorded(review, more) ensures Recorded(review, events + more) {
      RecordedLater(review, events, more);
    }
  }

  lemma ActRecorded(cfg: Config, call: Call, db: Db, input: Input, events: seq<Event>)
    requires ReviewsRecorded(db, events) && OwedRecorded(call, events)
    ensures var (c, d) := Act(cfg, call, db, input);
            var all := events + StageEvent(call, db);
            ReviewsRecorded(d, all) && OwedRecorded(c, all)
  {
    hide Recorded, Swap, Append, Continue;
    var all := events + StageEvent(call, db);
    AllRecordedLater(System(db, 0, [call], []), events, StageEvent(call, db));
    assert OwedRecorded(call, all) by { assert call in System(db, 0, [call], []).calls; }
    if call.Logging? {
      ContinueOwes(Returned(call.row), call.then_, all);
      if call.owed != [] {
        AppendRecords(db, call.owed[0], input.now, all);
        assert forall o <- call.owed[1..] :: o in call.owed;
      }
    } else if call.Swapping? && call.at.Some? {
      SwapRecorded(cfg, call, db);
      OwedRecordedLater(Swap(cfg, call, db).0, events, StageEvent(call, db));
    } else {
      QuietRecorded(cfg, call, db, input, all);
      hide Act;
    }
  }

  lemma ContinueOwes(reply: Reply, rest: Rest, events: seq<Event>)
    ensures OwedRecorded(Continue(reply, rest), events)
  {
  }

  lemma StepRecorded(cfg: Config, s: System, move: Move, events: seq<Event>)
    requires AllRecorded(s, events)
    ensures AllRecorded(Step(cfg, s, move), events + EventOf(s, move))
  {
    hide Act, StageEvent, OwedRecorded, ReviewsRecorded;
    AllRecordedLater(s, events, EventOf(s, move));
    if move.Stage? && move.pid < |s.calls| {
      ActRecorded(cfg, s.calls[move.pid], s.db, Input(s.clock, move.pick, move.outcome), events);
    } else if move.Begin? && Initial(move.call) {
      InitialOwes(move.call, events + EventOf(s, move));
    }
  }

  lemma InitialOwes(call: Call, events: seq<Event>)
    requires Initial(call)
    ensures OwedRecorded(call, events)
  {
  }

  lemma {:induction false} RunRecorded(cfg: Config, moves: seq<Move>)
    ensures AllRecorded(Run(cfg, moves), Events(cfg, moves))
  {
    if moves != [] {
      hide Step, AllRecorded, EventOf;
      RunRecorded(cfg, moves[..|moves| - 1]);
      StepRecorded(cfg, Run(cfg, moves[..|moves| - 1]), moves[|moves| - 1], Events(cfg, moves[..|moves| - 1]));
    } else {
      assert AllRecorded(INIT, []);
    }
  }

  /** Single independent decision. In any run, every review row of a request was written for a winning decision event;
      that decision is the one its row carries, and its author was an admin or the assigned reviewer and not the
      requester. */
  lemma ReviewsIndependent(cfg: Config, moves: seq<Move>, id: string, review: ReviewAction)
    requires cfg.maxAttempts >= 1 && review in Listed(Run(cfg, moves).db.reviews, id)
    ensures var rows := Run(cfg, moves).db.requests;
            && id in rows
            && exists e <- Events(cfg, moves) :: Records(review, e) && e.id == id && Stands(rows[id], e)
  {
    Linearisable(cfg, moves);
    DecisionsStand(cfg, Events(cfg, moves));
    RunRecorded(cfg, moves);
    hide Run, Events, Stands;
    var e :| e in Events(cfg, moves) && Records(review, e);
  }

  /** There is at most one review row, and exactly one, stored or owed, when the row is decided. */
  lemma OneReview(cfg: Config, moves: seq<Move>, id: string)
    requires cfg.maxAttempts >= 1
    ensures var s := Run(cfg, moves);
            |Listed(s.db.reviews, id)| + OwedByAll(s.calls, id, Review(Approve))
              + OwedByAll(s.calls, id, Review(Reject))
            == One(id in s.db.requests && Decided(s.db.requests[id].status))
    ensures |Listed(Run(cfg, moves).db.reviews, id)| <= 1
  {
    var s := Run(cfg, moves);
    TrailConserved(cfg, moves, id, Review(Approve));
    TrailConserved(cfg, moves, id, Review(Reject));
    RunCore(cfg, moves);
    hide Run, Stored, OwedByAll, Shape;
    if id in s.db.requests { assert Shape(cfg, s.db.requests[id]); DecidedTwice(cfg, s.db.requests[id]); }
    StoredReviews(s.db, id);
    OwedNonnegative(s.calls, id, Review(Approve));
    OwedNonnegative(s.calls, id, Review(Reject));
  }

  lemma DecidedTwice(cfg: Config, row: Request)
    requires Shape(cfg, row)
    ensures Earned(row, Review(Approve)) + Earned(row, Review(Reject)) == One(Decided(row.status))
  {
  }

  lemma StoredReviews(db: Db, id: string)
    ensures Stored(db, id, Review(Approve)) + Stored(db, id, Review(Reject)) == |Listed(db.reviews, id)|
  {
    CountsReviews(Listed(db.reviews, id));
    OnlyReviewMarks(Listed(db.audit, id), Listed(db.jobRuns, id), Approve);
    OnlyReviewMarks(Listed(db.audit, id), Listed(db.jobRuns, id), Reject);
  }

  lemma {:induction false} CountsReviews(log: seq<ReviewAction>)
    ensures CountReviews(log, Review(Approve)) + CountReviews(log, Review(Reject)) == |log|
  {
    if log != [] {
      CountsReviews(log[..|log| - 1]);
      match log[|log| - 1].decision
      case Approve =>
      case Reject =>
    }
  }

  lemma {:induction false} OnlyReviewMarks(audit: seq<AuditEntry>, runs: seq<JobRun>, d: Decision)
    ensures CountAudit(audit, Review(d)) == 0 && CountRuns(runs, Review(d)) == 0
    decreases |audit| + |runs|
  {
    if audit != [] { OnlyReviewMarks(audit[..|audit| - 1], runs, d); }
    if runs != [] { OnlyReviewMarks(audit, runs[..|runs| - 1], d); }
  }

  lemma {:induction false} OwedNonnegative(calls: seq<Call>, id: string, mark: Mark)
    ensures OwedByAll(calls, id, mark) >= 0
  {
    if calls != [] {
      OwedNonnegative(calls[..|calls| - 1], id, mark);
      var call := calls[|calls| - 1];
      if call.Logging? { CountNonnegative(call.owed, id, mark); }
      if call.Swapping? {
        CountNonnegative(OwedRun(call.snap.id, call.snap.attempts + 1, call.change, call.then_), id, mark);
      }
    }
  }

  lemma {:induction false} CountNonnegative(owed: seq<Owed>, id: string, mark: Mark)
    ensures CountOwed(owed, id, mark) >= 0
  {
    if owed != [] { CountNonnegative(owed[1..], id, mark); }
  }
}
