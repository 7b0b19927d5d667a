/** The scheduler that pauses the web service in the evening and resumes it in
    the morning, UK time: run once an hour, it acts only at the resume hour and
    at the pause hour. The local hour and the service's environment are
    parameters; the calls on the service are returned. */
module Scheduler {

  import opened Wrappers

  const ResumeHour := 8
  const PauseHour := 18
  const MissingArn := "'APPRUNNER_SERVICE_ARN'"

  datatype ServiceCall = ResumeService(serviceArn: string) | PauseService(serviceArn: string)

  datatype Reply = Resumed(reason: string) | Paused(reason: string) | NoAction(hourUk: int)

  /** The `action` field of the reply. */
  function Action(r: Reply): string {
    match r
    case Resumed(_) => "resume"
    case Paused(_) => "pause"
    case NoAction(_) => "none"
  }

  /** The handler: a missing service ARN raises `KeyError`; otherwise hour 8
      resumes the service, hour 18 pauses it, and any other hour does nothing
      and echoes the hour. */
  function LambdaHandler(serviceArn: Option<string>, hour: int): (r: Result<(Reply, seq<ServiceCall>)>)
    ensures r.Failure? <==> serviceArn.None?
    ensures r.Failure? ==> r.error == MissingArn
    ensures r.Success? ==> |r.value.1| <= 1 && (r.value.1 == [] <==> r.value.0.NoAction?)
    ensures r.Success? && hour == ResumeHour ==> r.value.1 == [ResumeService(serviceArn.value)]
    ensures r.Success? && hour == PauseHour ==> r.value.1 == [PauseService(serviceArn.value)]
    ensures r.Success? && r.value.0.NoAction? ==> r.value.0.hourUk == hour
  {
    if serviceArn.None? then Failure(MissingArn)
    else
      var arn := serviceArn.value;
      if hour == ResumeHour then Success((Resumed("8am UK"), [ResumeService(arn)]))
      else if hour == PauseHour then Success((Paused("6pm UK"), [PauseService(arn)]))
      else Success((NoAction(hour), []))
  }

  // ----- lemmas -----

  /** Exactly one action per run: resume at 8, pause at 18, none otherwise, and
      never both a resume and a pause. */
  lemma ExactlyOneAction(arn: string, hour: int)
    ensures var r := LambdaHandler(Some(arn), hour);
      && r.Success?
      && (Action(r.value.0) == "resume" <==> hour == ResumeHour)
      && (Action(r.value.0) == "pause" <==> hour == PauseHour)
      && (Action(r.value.0) == "none" <==> hour != ResumeHour && hour != PauseHour)
      && !(ResumeService(arn) in r.value.1 && PauseService(arn) in r.value.1)
  {
  }
}
