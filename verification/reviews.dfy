/**
 The review columns rebuilt from the log: the task's review status and version and every link's review
 status, for tasks with any number of links. The log is folded together with the links' relations.
 */
module Reviews {
  import opened Vocabulary
  import opened Rules
  import opened Lifecycle

  /** The review status and version of a task, and the review status of each of its links. */
  datatype Standing = Standing(review: Status, version: int, links: seq<Status>)

  const UNREVIEWED := Standing(Pending, 1, [])

  /** A review decides its link. The task follows an approval unless it continues what is already approved, and a
      rejection of the founding link only; an override gives the task the standing of its link. */
  function Judge(s: Standing, e: Event, relations: seq<Relation>): Standing {
    if e.kind.LinkCreated? then
      s.(links := s.links + [if e.to.Some? then e.to.value else Pending])
    else if e.link >= |s.links| || e.link >= |relations| then s
    else if e.kind.SuggestionReview? && e.to == Some(Approved) then
      var moves := !relations[e.link].SameActionContinuation? || !s.review.Approved?;
      Standing(if moves then Approved else s.review, if moves then s.version + 1 else s.version,
               s.links[e.link := Approved])
    else if e.kind.SuggestionReview? && e.to == Some(Rejected) then
      var moves := relations[e.link].NewTask?;
      Standing(if moves then Rejected else s.review, if moves then s.version + 1 else s.version,
               s.links[e.link := Rejected])
    else if e.kind.SupervisorOverride? then Standing(s.links[e.link], s.version + 1, s.links)
    else if e.kind.TaskTerminated? then s.(version := s.version + 1)
    else s
  }

  function Judged(events: seq<Event>, relations: seq<Relation>): Standing {
    if |events| == 0 then UNREVIEWED
    else Judge(Judged(events[..|events| - 1], relations), events[|events| - 1], relations)
  }

  function Relations(links: seq<Link>): (relations: seq<Relation>)
    ensures |relations| == |links|
    ensures forall l :: 0 <= l < |links| ==> relations[l] == links[l].relation
  {
    seq(|links|, l requires 0 <= l < |links| => links[l].relation)
  }

  function ReviewsOf(links: seq<Link>): (reviews: seq<Status>)
    ensures |reviews| == |links|
    ensures forall l :: 0 <= l < |links| ==> reviews[l] == links[l].review
  {
    seq(|links|, l requires 0 <= l < |links| => links[l].review)
  }

  function StandingOf(t: TaskRows): Standing {
    Standing(t.task.review, t.task.reviewVersion, ReviewsOf(t.links))
  }

  /** The log and the relations of the links determine every review column. */
  ghost predicate Reviewed(t: TaskRows) {
    Judged(t.events, Relations(t.links)) == StandingOf(t)
  }

  /** Relations of later links do not matter to a log that names none of them. */
  lemma {:induction false} JudgedStays(events: seq<Event>, before: seq<Relation>, after: seq<Relation>)
    requires before <= after && forall i :: 0 <= i < |events| ==> events[i].link < |before|
    ensures Judged(events, before) == Judged(events, after)
  {
    if |events| > 0 {
      JudgedStays(events[..|events| - 1], before, after);
    }
  }

  /** What the appended event says of the review columns. */
  ghost predicate JudgedStep(t: TaskRows, n: TaskRows) {
    && |n.events| == |t.events| + 1 && n.events[..|t.events|] == t.events
    && Relations(t.links) <= Relations(n.links)
    && StandingOf(n) == Judge(StandingOf(t), n.events[|t.events|], Relations(n.links))
  }

  ghost predicate JudgedReply(t: TaskRows, reply: Reply) {
    if reply.outcome.Applied? then JudgedStep(t, reply.rows) else reply.rows == t
  }

  lemma JudgedIsKept(t: TaskRows, reply: Reply)
    requires Shape(t) && Reviewed(t) && JudgedReply(t, reply)
    ensures Reviewed(reply.rows)
  {
    if reply.outcome.Applied? {
      JudgedStays(t.events, Relations(t.links), Relations(reply.rows.links));
    }
  }

  lemma ImportJudged(t: TaskRows, c: Command)
    requires Shape(t) && c.Import?
    ensures JudgedReply(t, ApplyImport(t, c))
  {
  }

  lemma ReviewJudged(t: TaskRows, c: Command, seen: bool)
    requires Shape(t) && c.Review? && Precheck(c).None?
    ensures JudgedReply(t, ApplyReview(t, c, seen))
  {
  }

  lemma OverrideJudged(t: TaskRows, c: Command, seen: bool)
    requires Shape(t) && c.Override? && Precheck(c).None?
    ensures JudgedReply(t, ApplyOverride(t, c, seen))
  {
  }

  lemma TerminateJudged(t: TaskRows, c: Command, seen: bool)
    requires Shape(t) && c.Terminate?
    ensures JudgedReply(t, ApplyTerminate(t, c, seen))
  {
  }

  lemma ExecuteJudged(t: TaskRows, c: Command, seen: bool)
    requires Shape(t) && c.Execute? && Precheck(c).None?
    ensures JudgedReply(t, ApplyExecute(t, c, seen))
  {
  }

  lemma RecordJudged(t: TaskRows, c: Command, seen: bool, taken: bool)
    requires Shape(t) && c.RecordResult? && Precheck(c).None?
    ensures JudgedReply(t, ApplyRecordResult(t, c, seen, taken))
  {
  }

  lemma SubmissionJudged(t: TaskRows, c: Command, seen: bool, taken: bool)
    requires Shape(t) && c.SubmitClearance? && Precheck(c).None?
    ensures JudgedReply(t, ApplySubmitClearance(t, c, seen, taken))
  {
  }

  lemma ClearanceReviewJudged(t: TaskRows, c: Command, seen: bool)
    requires Shape(t) && c.ReviewClearance? && Precheck(c).None?
    ensures JudgedReply(t, ApplyReviewClearance(t, c, seen))
  {
  }

  lemma AnnotateJudged(t: TaskRows, c: Command, seen: bool)
    requires Shape(t) && c.Annotate? && Precheck(c).None?
    ensures JudgedReply(t, ApplyAnnotate(t, c, seen))
  {
  }

  lemma ReviewedKept(t: TaskRows, c: Command, seen: bool, taken: bool)
    requires Shape(t) && Reviewed(t) && Precheck(c).None?
    ensures Reviewed(Apply(t, c, seen, taken).rows)
  {
    match c {
      case Import(_, _, _) => ImportJudged(t, c);
      case Review(_, _, _, _, _, _) => ReviewJudged(t, c, seen);
      case Override(_, _, _, _, _, _, _) => OverrideJudged(t, c, seen);
      case Terminate(_, _, _, _, _) => TerminateJudged(t, c, seen);
      case Execute(_, _, _, _, _) => ExecuteJudged(t, c, seen);
      case RecordResult(_, _, _, _, _, _, _, _, _) => RecordJudged(t, c, seen, taken);
      case SubmitClearance(_, _, _, _, _, _) => SubmissionJudged(t, c, seen, taken);
      case ReviewClearance(_, _, _, _, _) => ClearanceReviewJudged(t, c, seen);
      case Annotate(_, _) => AnnotateJudged(t, c, seen);
    }
    JudgedIsKept(t, Apply(t, c, seen, taken));
  }

  lemma NewRowsReviewed(operator: string, cutoff: int, decision: Decision)
    ensures Reviewed(NewRows(operator, cutoff, decision))
  {
    var t := NewRows(operator, cutoff, decision);
    assert t.events[..0] == [];
  }
}
