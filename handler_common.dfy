/** What the two analysis handlers share: the time windows, the training-plan
    read, the model's reply and how its text is taken, and when sorting the
    stored runs raises. */
module HandlerCommon {

  import opened Wrappers
  import opened Records
  import opened RunOrder
  import opened ActivityFilters

  const TriggerHours := 12
  const ContextDays := 7
  const DefaultPlan := "No specific training plan provided."
  const UnexpectedFormat := "Unexpected response format from Garmin API"
  const NoRunsMessage := "No runs in the last 12 hours"

  /** Reading the training plan object: its text, a `NoSuchKey` error, or any
      other error, which propagates. */
  datatype PlanRead = PlanText(text: string) | NoSuchKey | PlanFailure(message: string)

  /** What invoking the model gives: a response whose first content block holds
      `text` (`None` when the content list is empty or missing or the block has
      no text), a client error with its message, or any other exception raised
      while invoking the model or reading its reply (a timeout, a body that is
      not JSON, a text that is not a string), which no handler catches. */
  datatype Reply = Answer(text: Option<string>) | ClientFailure(message: string) | OtherFailure(message: string)

  /** The training plan, the default text when the object does not exist, an
      error otherwise. */
  function TrainingPlan(read: PlanRead): (plan: Result<string>)
    ensures read.PlanText? ==> plan == Success(read.text)
    ensures read.NoSuchKey? ==> plan == Success(DefaultPlan)
    ensures read.PlanFailure? ==> plan == Failure(read.message)
  {
    match read
    case PlanText(t) => Success(t)
    case NoSuchKey => Success(DefaultPlan)
    case PlanFailure(m) => Failure(m)
  }

  /** The analysis text: the text of the reply's first content block; an error,
      or a reply without that text, raises. */
  function AnalysisText(reply: Reply): (analysis: Result<string>)
    ensures analysis.Success? <==> reply.Answer? && reply.text.Some?
    ensures analysis.Success? ==> analysis.value == reply.text.value
  {
    match reply
    case Answer(Some(t)) => Success(t)
    case Answer(None) => Failure("no text in the first content block")
    case ClientFailure(m) => Failure(m)
    case OtherFailure(m) => Failure(m)
  }

  /** Whether sorting the runs raises: Python compares every key of a list of two
      or more, and a null start time does not compare with anything. */
  predicate SortRaises(running: seq<Activity>) {
    |running| >= 2 && !AllStarted(running)
  }

  /** The recent runs the handlers take out of the week's activities are the
      runs of the whole fetch that started in the last twelve hours: the
      seven-day window never drops one of them. */
  lemma RecentRunsOfWeek(raw: seq<Activity>, parse: string -> Option<int>, now: int)
    ensures RunsInWindow(InWindow(raw, parse, now - ContextDays * SecondsPerDay), parse,
                         now - TriggerHours * SecondsPerHour)
            == RunsInWindow(raw, parse, now - TriggerHours * SecondsPerHour)
  {
    TriggerWithinContext(raw, parse, now - ContextDays * SecondsPerDay, now - TriggerHours * SecondsPerHour);
  }
}
