/**
 A job row as the record of what happened to it.  The fields are defined here from the
 events of the job's life alone, without any statement, and every row of every reachable
 state is proved to hold exactly them.
 */
module ProtocolHistory {
  import opened Prelude
  import opened JobRows
  import opened JobProtocol
  import opened ProtocolBudget

  /** What can happen to a job after its upload. */
  datatype Event =
    | Begins
    | Completes(doc: DocId)
    | Postponed(error: string)
    | FailsWith(error: string)
    | RetriedByUser
    | CanceledByUser
    | DocumentDeleted

  datatype Moment = Moment(event: Event, at: int)

  /** The upload a job comes from, and its life since. */
  datatype Biography = Biography(upload: Upload, born: int, life: seq<Moment>)

  // ---------------------------------------------------------------- the row of a life

  function StatusOf(life: seq<Moment>): Status {
    if life == [] then Pending
    else
      match life[|life| - 1].event
      case Begins => Processing
      case Completes(_) => Completed
      case Postponed(_) => Pending
      case FailsWith(_) => Failed
      case RetriedByUser => Pending
      case CanceledByUser => Canceled
      case DocumentDeleted => StatusOf(life[..|life| - 1])
  }

  /** How often it began since the last manual retry. */
  function AttemptsOf(life: seq<Moment>): nat {
    if life == [] then 0
    else
      var before := AttemptsOf(life[..|life| - 1]);
      match life[|life| - 1].event
      case Begins => before + 1
      case RetriedByUser => 0
      case _ => before
  }

  /** When it last began, unless it was retried by hand since. */
  function StartedAtOf(life: seq<Moment>): Option<int> {
    if life == [] then None
    else
      match life[|life| - 1].event
      case Begins => Some(life[|life| - 1].at)
      case RetriedByUser => None
      case _ => StartedAtOf(life[..|life| - 1])
  }

  /** When its last attempt, or the job, came to an end, unless it began or was retried since. */
  function FinishedAtOf(life: seq<Moment>): Option<int> {
    if life == [] then None
    else
      match life[|life| - 1].event
      case Begins => None
      case RetriedByUser => None
      case DocumentDeleted => FinishedAtOf(life[..|life| - 1])
      case _ => Some(life[|life| - 1].at)
  }

  /** When anything but the loss of its document last happened to it. */
  function UpdatedAtOf(born: int, life: seq<Moment>): int {
    if life == [] then born
    else if life[|life| - 1].event.DocumentDeleted? then UpdatedAtOf(born, life[..|life| - 1])
    else life[|life| - 1].at
  }

  /** What ended it, if it is failed or canceled. */
  function ErrorMessageOf(life: seq<Moment>): Option<string> {
    if life == [] then None
    else
      match life[|life| - 1].event
      case FailsWith(error) => Some(error)
      case CanceledByUser => Some(CANCEL_REASON)
      case DocumentDeleted => ErrorMessageOf(life[..|life| - 1])
      case _ => None
  }

  /** The last thing that went wrong, until it is completed or canceled. */
  function LastErrorOf(life: seq<Moment>): Option<string> {
    if life == [] then None
    else
      match life[|life| - 1].event
      case Postponed(error) => Some(error)
      case FailsWith(error) => Some(error)
      case Completes(_) => None
      case CanceledByUser => None
      case _ => LastErrorOf(life[..|life| - 1])
  }

  /** The document it was last completed with, until that is deleted. */
  function DocumentOf(life: seq<Moment>): Option<DocId> {
    if life == [] then None
    else
      match life[|life| - 1].event
      case Completes(doc) => Some(doc)
      case DocumentDeleted => None
      case _ => DocumentOf(life[..|life| - 1])
  }

  function RowOf(bio: Biography): Job {
    var u, life := bio.upload, bio.life;
    Job(tenant := u.tenant, fileName := u.fileName, contentType := u.contentType, fileSize := u.fileSize,
        rawPath := u.rawPath, maxAttempts := u.maxAttempts, createdAt := bio.born,
        status := StatusOf(life), attempts := AttemptsOf(life),
        startedAt := StartedAtOf(life), finishedAt := FinishedAtOf(life), updatedAt := UpdatedAtOf(bio.born, life),
        errorMessage := ErrorMessageOf(life), lastError := LastErrorOf(life), documentId := DocumentOf(life))
  }

  // ---------------------------------------------------------------- the life of a job in a run

  /** What an action means for job `j`. */
  function HappensTo(s: State, a: Action, j: JobId): Option<Moment>
    requires Refers(s) && Enabled(s, a) && j < |s.jobs|
  {
    var row := s.jobs[j];
    match a
    case Start(w) =>
      if s.actors[w].job == j && (row.status == Pending || row.status == Failed) && row.attempts < row.maxAttempts
      then Some(Moment(Begins, s.clock)) else None
    case Complete(w) =>
      if s.actors[w].job == j then Some(Moment(Completes(s.actors[w].doc), s.clock)) else None
    case CompleteUnacknowledged(w, _) =>
      if s.actors[w].job == j then Some(Moment(Completes(s.actors[w].doc), s.clock)) else None
    case HandleError(w) =>
      if s.actors[w].job != j then None
      else if s.actors[w].attempts < s.actors[w].maxAttempts then Some(Moment(Postponed(s.actors[w].error), s.clock))
      else Some(Moment(FailsWith(s.actors[w].error), s.clock))
    case FailUnqueued(w) =>
      if s.actors[w].job == j then Some(Moment(FailsWith(s.actors[w].error), s.clock)) else None
    case Reap(_, staleAfter) =>
      if row.status == Processing && row.startedAt.Some? && row.startedAt.value < s.clock - staleAfter
      then Some(Moment(FailsWith(STALE_ERROR), s.clock)) else None
    case RetryCall(k, tenant, at) =>
      if k == j && row.tenant == tenant && row.status == Failed then Some(Moment(RetriedByUser, at)) else None
    case CancelCall(k, tenant, at) =>
      if k == j && row.tenant == tenant && row.status == Pending then Some(Moment(CanceledByUser, at)) else None
    case DeleteCall(d, tenant) =>
      if s.docs[d].live && s.jobs[s.docs[d].job].tenant == tenant && row.documentId == Some(d)
      then Some(Moment(DocumentDeleted, s.clock)) else None
    case _ => None
  }

  function Noted(life: seq<Moment>, m: Option<Moment>): seq<Moment> {
    if m == None then life else life + [m.value]
  }

  /** The events of job `j` in a run, after those that came before. */
  ghost function LifeOf(s: State, run: seq<Action>, j: JobId, before: seq<Moment>): seq<Moment>
    requires Refers(s) && IsRun(s, run, NOTHING) && j < |s.jobs|
    decreases |run|
  {
    if run == [] then before
    else
      RefersKept(s, run[0]);
      LifeOf(Next(s, run[0]), run[1..], j, Noted(before, HappensTo(s, run[0], j)))
  }

  /** The biography of job `j` in a run from a state where it is not there yet. */
  ghost function BiographyOf(s: State, run: seq<Action>, j: JobId): Option<Biography>
    requires Refers(s) && IsRun(s, run, NOTHING) && j >= |s.jobs|
    decreases |run|
  {
    if run == [] then None
    else
      RefersKept(s, run[0]);
      if run[0].UploadCall? && j == |s.jobs| then
        Some(Biography(run[0].upload, run[0].at, LifeOf(Next(s, run[0]), run[1..], j, [])))
      else BiographyOf(Next(s, run[0]), run[1..], j)
  }

  // ---------------------------------------------------------------- every row is its life

  lemma StepIsNoted(s: State, a: Action, j: JobId, bio: Biography)
    requires Refers(s) && Enabled(s, a) && j < |s.jobs| && Shape(s.jobs[j]) && s.jobs[j] == RowOf(bio)
    ensures j < |Next(s, a).jobs|
    ensures Next(s, a).jobs[j] == RowOf(bio.(life := Noted(bio.life, HappensTo(s, a, j))))
  {
    var m := HappensTo(s, a, j);
    if m.Some? {
      WriteIsNoted(s, a, j, m.value);
      RowOfLonger(bio, m.value);
    } else {
      NothingIsNoted(s, a, j);
    }
  }

  lemma NothingIsNoted(s: State, a: Action, j: JobId)
    requires Refers(s) && Enabled(s, a) && j < |s.jobs| && HappensTo(s, a, j) == None
    ensures j < |Next(s, a).jobs| && Next(s, a).jobs[j] == s.jobs[j]
  {
    RowEffect(s, a, j);
  }

  /** One event more, field by field. */
  lemma WriteIsNoted(s: State, a: Action, j: JobId, m: Moment)
    requires Refers(s) && Enabled(s, a) && j < |s.jobs| && Shape(s.jobs[j]) && HappensTo(s, a, j) == Some(m)
    ensures j < |Next(s, a).jobs|
    ensures Next(s, a).jobs[j] == Changed(s.jobs[j], m)
  {
    RowEffect(s, a, j);
  }

  /** The row after one event, in terms of the row before. */
  function Changed(row: Job, m: Moment): Job {
    match m.event
    case Begins =>
      row.(status := Processing, attempts := row.attempts + 1, errorMessage := None, startedAt := Some(m.at),
           finishedAt := None, updatedAt := m.at)
    case Completes(doc) =>
      row.(status := Completed, documentId := Some(doc), errorMessage := None, lastError := None,
           finishedAt := Some(m.at), updatedAt := m.at)
    case Postponed(error) =>
      row.(status := Pending, errorMessage := None, lastError := Some(error), finishedAt := Some(m.at), updatedAt := m.at)
    case FailsWith(error) =>
      row.(status := Failed, errorMessage := Some(error), lastError := Some(error), finishedAt := Some(m.at),
           updatedAt := m.at)
    case RetriedByUser =>
      row.(status := Pending, attempts := 0, errorMessage := None, startedAt := None, finishedAt := None, updatedAt := m.at)
    case CanceledByUser =>
      row.(status := Canceled, errorMessage := Some(CANCEL_REASON), lastError := None, finishedAt := Some(m.at),
           updatedAt := m.at)
    case DocumentDeleted => row.(documentId := None)
  }

  lemma RowOfLonger(bio: Biography, m: Moment)
    ensures RowOf(bio.(life := bio.life + [m])) == Changed(RowOf(bio), m)
  {
    assert (bio.life + [m])[..|bio.life|] == bio.life;
  }

  lemma {:induction false} LifeGoesOn(s: State, run: seq<Action>, j: JobId, bio: Biography)
    requires Refers(s) && RowsValid(s) && IsRun(s, run, NOTHING) && j < |s.jobs| && s.jobs[j] == RowOf(bio)
    ensures j < |Exec(s, run).jobs|
    ensures Exec(s, run).jobs[j] == RowOf(bio.(life := LifeOf(s, run, j, bio.life)))
    decreases |run|
  {
    if run == [] {
    } else {
      var a := run[0];
      RowsKept(s, a);
      StepIsNoted(s, a, j, bio);
      LifeGoesOn(Next(s, a), run[1..], j, bio.(life := Noted(bio.life, HappensTo(s, a, j))));
    }
  }

  /**
   Every row of every reachable state, whatever failed or raced on the way, holds the upload
   it came from and what its life says: when it last began and ended, how often it was
   attempted since the last manual retry, what went wrong last.
   */
  lemma {:induction false} RowIsItsLife(s: State, run: seq<Action>, j: JobId)
    requires Refers(s) && RowsValid(s) && IsRun(s, run, NOTHING) && j >= |s.jobs|
    ensures j < |Exec(s, run).jobs| <==> BiographyOf(s, run, j).Some?
    ensures j < |Exec(s, run).jobs| ==> Exec(s, run).jobs[j] == RowOf(BiographyOf(s, run, j).value)
    decreases |run|
  {
    if run == [] {
    } else {
      var a := run[0];
      RowsKept(s, a);
      RefersKept(s, a);
      if a.UploadCall? && j == |s.jobs| {
        LifeGoesOn(Next(s, a), run[1..], j, Biography(a.upload, a.at, []));
      } else {
        RowIsItsLife(Next(s, a), run[1..], j);
      }
    }
  }

  /**
   Stuck work becomes visible: in every reachable state one reap fails exactly the jobs that
   are processing and last began longer ago than the timeout, with the error that says so,
   and leaves every other row as it was.
   */
  lemma StuckWorkIsReaped(run: seq<Action>, w: ActorId, staleAfter: int, j: JobId)
    requires IsRun(InitialState(), run, NOTHING)
    requires var s := Exec(InitialState(), run); Enabled(s, Reap(w, staleAfter)) && j < |s.jobs|
    ensures var s := Exec(InitialState(), run);
            var s' := Next(s, Reap(w, staleAfter));
            && |s'.jobs| == |s.jobs| && BiographyOf(InitialState(), run, j).Some?
            && var life := BiographyOf(InitialState(), run, j).value.life;
            if StatusOf(life) == Processing && StartedAtOf(life).Some? && StartedAtOf(life).value < s.clock - staleAfter
            then s'.jobs[j].status == Failed && s'.jobs[j].lastError == s'.jobs[j].errorMessage
                 == Some("Job de ingestao expirou durante processamento.")
            else s'.jobs[j] == s.jobs[j]
    ensures var life := BiographyOf(InitialState(), run, j).value.life;
            StatusOf(life) == Processing ==> StartedAtOf(life).Some?
  {
    RowShapeAlways(InitialState(), run);
    RowIsItsLife(InitialState(), run, j);
    var s := Exec(InitialState(), run);
    assert Shape(s.jobs[j]);
    RowEffect(s, Reap(w, staleAfter), j);
  }
}
